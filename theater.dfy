/** Value types shared by the billing engine: plays, performances, invoices,
    the errors a statement can fail with, and the generic "walk a sequence,
    stop at the first failure" traversal that specifies the engine's three
    loops that can fail. */
module Theater {
  import opened JavaInt

  /** An audience size. Seat counts are never negative, and the model bounds
      them so that every per-performance amount fits a 32-bit Java `int`. */
  const MAX_AUDIENCE: int := 100_000
  type Audience = a: int | 0 <= a <= MAX_AUDIENCE

  /** A play of the catalogue: its display name and its genre tag. */
  datatype Play = Play(name: string, playType: string)

  /** One line of an invoice: which play, and how many seats were sold. */
  datatype Performance = Performance(playID: string, audience: Audience)

  /** A customer and the performances billed to them, in order. */
  datatype Invoice = Invoice(customer: string, performances: seq<Performance>)

  /** The two ways a statement fails: the genre tag is none of the known
      ones ("unknown type: ..."), or the play id has no entry in the catalogue
      (a null play dereferenced). */
  datatype Error = UnknownType(playType: string) | UnresolvedPlay(playID: string)

  datatype Option<T> = None | Some(value: T)

  datatype Result<T> = Ok(value: T) | Err(error: Error)

  /** Java's Math.max on two ints. */
  function Max(a: int, b: int): (r: int)
    ensures r >= a && r >= b && (r == a || r == b)
  {
    if a >= b then a else b
  }

  /** Sum of a sequence, accumulated from the front as the source's loops do
      (so the recursion peels the last element). */
  function Sum(xs: seq<int>): int
  {
    if xs == [] then 0 else Sum(xs[..|xs| - 1]) + xs[|xs| - 1]
  }

  /** Apply `f` to every element in order; the first failure aborts the walk
      and is the result, otherwise the results are collected in order. */
  function Traverse<A, B>(f: A -> Result<B>, s: seq<A>): (r: Result<seq<B>>)
    ensures r.Ok? <==> forall i :: 0 <= i < |s| ==> f(s[i]).Ok?
    ensures r.Ok? ==> |r.value| == |s| && forall i :: 0 <= i < |s| ==> f(s[i]) == Ok(r.value[i])
    ensures r.Err? ==> exists k :: 0 <= k < |s| && f(s[k]) == Err(r.error) &&
                                   forall j :: 0 <= j < k ==> f(s[j]).Ok?
  {
    if s == [] then Ok([])
    else
      var init := s[..|s| - 1];
      assert forall i :: 0 <= i < |init| ==> init[i] == s[i];
      match Traverse(f, init)
      case Err(e) => Err(e)
      case Ok(bs) =>
        match f(s[|s| - 1])
        case Err(e) => Err(e)
        case Ok(b) => Ok(bs + [b])
  }

  /** One more element extends a successful walk by that element's result. */
  lemma TraverseSnoc<A, B>(f: A -> Result<B>, s: seq<A>, x: A)
    requires Traverse(f, s).Ok? && f(x).Ok?
    ensures Traverse(f, s + [x]) == Ok(Traverse(f, s).value + [f(x).value])
  {
    assert (s + [x])[..|s|] == s;
  }

  /** A walk whose prefix before `k` succeeds and whose element `k` fails
      fails with that element's error, whatever follows it. */
  lemma TraverseStopsAt<A, B>(f: A -> Result<B>, s: seq<A>, k: nat)
    requires k < |s| && f(s[k]).Err?
    requires forall j :: 0 <= j < k ==> f(s[j]).Ok?
    ensures Traverse(f, s) == Err(f(s[k]).error)
  {
    var r := Traverse(f, s);
    var k' :| 0 <= k' < |s| && f(s[k']) == Err(r.error) && forall j :: 0 <= j < k' ==> f(s[j]).Ok?;
    if k' != k {
      assert false;
    }
  }

  /** Summing one more element adds it. */
  lemma SumSnoc(xs: seq<int>, x: int)
    ensures Sum(xs + [x]) == Sum(xs) + x
  {
    assert (xs + [x])[..|xs|] == xs;
  }

  /** The accumulator loop `result += f(x)` over `s` in Java `int`
      arithmetic: the first failing call aborts the loop with its error,
      otherwise the result is the exact sum of the calls' values wrapped
      to 32 bits. */
  method SumEach<A>(f: A -> Result<int>, s: seq<A>) returns (r: Result<int>)
    ensures r.Ok? <==> Traverse(f, s).Ok?
    ensures r.Ok? ==> r.value == Wrap32(Sum(Traverse(f, s).value))
    ensures r.Err? ==> r.error == Traverse(f, s).error
  {
    var result := 0;
    for i := 0 to |s|
      invariant Traverse(f, s[..i]).Ok?
      invariant result == Wrap32(Sum(Traverse(f, s[..i]).value))
    {
      var x := f(s[i]);
      if x.Err? {
        assert forall j :: 0 <= j < i ==> s[..i][j] == s[j];
        TraverseStopsAt(f, s, i);
        return Err(x.error);
      }
      assert s[..i + 1] == s[..i] + [s[i]];
      TraverseSnoc(f, s[..i], s[i]);
      SumSnoc(Traverse(f, s[..i]).value, x.value);
      WrapAdd(Sum(Traverse(f, s[..i]).value), x.value);
      result := Wrap32(result + x.value);
    }
    assert s[..|s|] == s;
    return Ok(result);
  }
}
