/** Combining several errors into one and rendering the result as a string.

    Go errors are interface values; the three concrete kinds this package
    defines become the constructors of `Err`, and a possibly-nil `error` is an
    `Option<Err>`. A present `Err` is never nil, so "no nil elements" in a
    pair or a list holds by construction. */
module Errs {

  import opened Wrappers
  import opened Strings

  /** `basicError` (a leaf holding one message), `errpair` (exactly two
      errors) and `errlist` (an ordered list of errors). */
  datatype Err =
    | Basic(msg: string)
    | PairE(first: Err, second: Err)
    | List(errs: seq<Err>)

  /** The separator every composite error puts between its parts. */
  const Separator: string := "; "

  /** The `Error()` method of each kind: a leaf renders as its message, a
      pair as its two halves around the separator, a list as the
      separator-join of its elements' renderings, recursively. */
  function Render(e: Err): (r: string)
    decreases e
    ensures e.Basic? ==> r == e.msg
    ensures e.List? && e.errs == [] ==> r == ""
    ensures e.List? && |e.errs| == 1 ==> r == Render(e.errs[0])
  {
    match e
    case Basic(m) => m
    case PairE(a, b) => Render(a) + Separator + Render(b)
    case List(es) => Join(Renderings(es), Separator)
  }

  /** The rendering of each error of `es`, position by position. */
  function Renderings(es: seq<Err>): (r: seq<string>)
    decreases es
    ensures |r| == |es|
    ensures forall i :: 0 <= i < |es| ==> r[i] == Render(es[i])
  {
    if es == [] then [] else [Render(es[0])] + Renderings(es[1..])
  }

  /** `New`: a leaf error that renders as exactly its message. */
  function New(msg: string): (r: Err)
    ensures r.Basic?
    ensures Render(r) == msg
  {
    Basic(msg)
  }

  /** `Eat`: forwards the error half of a (value, error) result and drops
      the value, whatever it is. */
  function Eat<V>(v: V, e: Option<Err>): (r: Option<Err>)
    ensures r == e
  {
    e
  }

  /** `Pair`: nil when both are nil, the other one unchanged when one is
      nil, and a new pair rendering as both halves around the separator
      when neither is. */
  function Pair(first: Option<Err>, second: Option<Err>): (r: Option<Err>)
    ensures r.None? <==> first.None? && second.None?
    ensures first.None? ==> r == second
    ensures second.None? ==> r == first
    ensures first.Some? && second.Some? ==>
      r == Some(PairE(first.value, second.value)) &&
      Render(r.value) == Render(first.value) + Separator + Render(second.value)
  {
    if first.None? || second.None? then
      if second.Some? then second else first
    else
      Some(PairE(first.value, second.value))
  }

  /** The present errors of `es`, in their original order. */
  function Survivors(es: seq<Option<Err>>): (r: seq<Err>)
    ensures |r| <= |es|
    ensures r == [] <==> forall i :: 0 <= i < |es| ==> es[i].None?
    ensures forall e :: e in r <==> Some(e) in es
  {
    if es == [] then []
    else
      var rest := Survivors(es[1..]);
      assert forall e :: Some(e) in es <==> Some(e) == es[0] || Some(e) in es[1..];
      if es[0].Some? then [es[0].value] + rest else rest
  }

  /** Filtering distributes over concatenation: together with
      `Survivors([None]) == []` and `Survivors([Some(e)]) == [e]` this pins
      the filter down as "the present errors, in order". */
  lemma {:induction false} SurvivorsAppend(a: seq<Option<Err>>, b: seq<Option<Err>>)
    ensures Survivors(a + b) == Survivors(a) + Survivors(b)
  {
    if a == [] {
      assert a + b == b;
    } else {
      assert (a + b)[1..] == a[1..] + b;
      SurvivorsAppend(a[1..], b);
    }
  }

  /** What `Chain` returns: nil for no arguments, the argument itself for
      one, and for two or more a list of the present arguments in order,
      or nil if every argument is nil. */
  function Chained(es: seq<Option<Err>>): (r: Option<Err>)
    ensures |es| == 0 ==> r.None?
    ensures |es| == 1 ==> r == es[0]
    ensures r.None? <==> forall i :: 0 <= i < |es| ==> es[i].None?
    ensures |es| >= 2 && r.Some? ==>
      r.value.List? && r.value.errs == Survivors(es) && 1 <= |r.value.errs| <= |es|
  {
    if |es| == 0 then None
    else if |es| == 1 then es[0]
    else
      var survivors := Survivors(es);
      if survivors == [] then None else Some(List(survivors))
  }

  /** `Chain`: builds the list of present arguments by appending each in
      turn, exactly as `Chained` describes. */
  method Chain(es: seq<Option<Err>>) returns (r: Option<Err>)
    ensures r == Chained(es)
  {
    if |es| == 0 {
      return None;
    } else if |es| == 1 {
      if es[0].Some? {
        return es[0];
      }
      return None;
    }
    var errors: seq<Err> := [];
    for i := 0 to |es|
      invariant errors == Survivors(es[..i])
    {
      SurvivorsAppend(es[..i], [es[i]]);
      assert es[..i + 1] == es[..i] + [es[i]];
      if es[i].Some? {
        errors := errors + [es[i].value];
      }
    }
    assert es[..|es|] == es;
    if |errors| == 0 {
      return None;
    }
    return Some(List(errors));
  }

  /** `errlist.Error`: fills an array with the rendering of each element,
      then joins it with the separator. */
  method ListError(errs: seq<Err>) returns (s: string)
    ensures s == Render(List(errs))
    ensures |errs| == 1 ==> s == Render(errs[0])
  {
    var lst := new string[|errs|];
    for i := 0 to |errs|
      invariant forall k :: 0 <= k < i ==> lst[k] == Render(errs[k])
    {
      lst[i] := Render(errs[i]);
    }
    assert lst[..] == Renderings(errs);
    s := Join(lst[..], Separator);
  }

  /** A present result of `Chain` renders as the separator-join of the
      renderings of the present arguments, in order; a lone survivor
      renders like itself. */
  lemma ChainRender(es: seq<Option<Err>>)
    requires Chained(es).Some?
    ensures Render(Chained(es).value) == Join(Renderings(Survivors(es)), Separator)
    ensures |Survivors(es)| == 1 ==> Render(Chained(es).value) == Render(Survivors(es)[0])
  {
  }

  /** Chaining two argument lists that each hold a present error renders as
      the two chains' renderings around the separator. */
  lemma {:induction false} ChainAppendRender(a: seq<Option<Err>>, b: seq<Option<Err>>)
    requires Chained(a).Some? && Chained(b).Some?
    ensures Chained(a + b).Some?
    ensures Render(Chained(a + b).value) ==
      Render(Chained(a).value) + Separator + Render(Chained(b).value)
  {
    var sa, sb := Survivors(a), Survivors(b);
    SurvivorsAppend(a, b);
    assert Survivors(a + b) == sa + sb;
    ChainRender(a);
    ChainRender(b);
    ChainRender(a + b);
    RenderingsAppend(sa, sb);
    JoinAppend(Renderings(sa), Renderings(sb), Separator);
  }

  /** Rendering position by position distributes over concatenation. */
  lemma RenderingsAppend(x: seq<Err>, y: seq<Err>)
    ensures Renderings(x + y) == Renderings(x) + Renderings(y)
  {
  }

  /** `Chain` of two arguments and `Pair` of the same two render alike, but
      `Chain` never builds a pair: two present errors become a two-element
      list. */
  lemma PairAndChainOfTwo(x: Option<Err>, y: Option<Err>)
    requires x.Some? || y.Some?
    ensures Pair(x, y).Some? && Chained([x, y]).Some?
    ensures Render(Pair(x, y).value) == Render(Chained([x, y]).value)
    ensures x.Some? && y.Some? ==> Chained([x, y]) == Some(List([x.value, y.value]))
  {
    ChainRender([x, y]);
    if x.Some? && y.Some? {
      assert Survivors([x, y]) == [x.value, y.value];
    }
  }

}
