/** A model of sfpd/pipe.py: an algebra that composes pipelines of unary
    callables.  A pipe owns a chain of callables; composing with `>>` and `<<`
    builds a fresh pipe by copying one chain and appending the other; applying
    a pipe is a left fold over its chain; the `Map` stage installs a single step
    that applies a pipe to every element of a sequence. */
module Pipes {

  /** The values that flow through a pipe: numbers, and sequences that a map
      step can iterate over. */
  datatype Value = Num(n: int) | Items(items: seq<Value>)

  /** The errors the core raises.  In the source the first three are
      TypeErrors, told apart here by constructor; RecursionDepth is where the
      model's depth budget for nested map steps runs out. */
  datatype Error =
    | NotPipeable(typeName: string)  // parse: neither Pipeable nor callable
    | EmptyPipe                      // apply on an empty chain
    | NotIterable                    // a map over a value that is not a sequence
    | RecursionDepth                 // nested pipe applications ran out of recursion depth

  datatype Result<T> = Ok(value: T) | Err(error: Error)

  /** A callable held in a chain: a user function, or the `map_apply` closure
      that `MetaMap.extend` creates.  The closure holds the pipe itself, not a
      snapshot of its chain, so it sees later changes to that pipe. */
  datatype Step = Fn(f: Value -> Value) | MapApply(target: PipeType)

  /** A Pipeable: a wrapped function, a pipe, or the `Map` singleton. */
  datatype Stage = PipeableFunc(func: Step) | PipeStage(pipe: PipeType) | MetaMap
  {
    /** The steps a stage other than `Map` appends to a chain. */
    function Steps(): (r: seq<Step>)
      requires !MetaMap?
      reads if PipeStage? then {pipe} else {}
    {
      if PipeableFunc? then [func] else pipe.chain
    }

    /** `extend(pipe)` of each Pipeable.  A function or a pipe appends its
        steps onto `target` in place and returns `target`; `Map` leaves
        `target` alone and returns a new one-step pipe mapping `target`. */
    method Extend(target: PipeType) returns (r: PipeType)
      modifies target
      ensures !MetaMap? ==> r == target && target.chain == old(target.chain) + old(Steps())
      ensures MetaMap? ==> fresh(r) && r.chain == [MapApply(target)] && unchanged(target)
      decreases if MetaMap? then 2 else 0
    {
      match this
      case PipeableFunc(f) =>
        target.chain := target.chain + [f];
        r := target;
      case PipeStage(p) =>
        r := p.Extend(target);
      case MetaMap =>
        var made := PipeType.NewFromPipeable(AsCallable(MapApply(target)));
        r := made.value;
    }

    /** `Map(argseq)`: binds the sequence and transforms nothing. */
    function Bind(argseq: Value): (a: MapApplicative)
      requires MetaMap?
      ensures a.seqarg == argseq
    {
      MapApplicative(argseq)
    }
  }

  /** Whatever a caller hands to a composition operator, as `parse` sees it. */
  datatype Operand =
    | AsPipeable(stage: Stage)
    | AsCallable(call: Step)
    | NotCallable(typeName: string)

  /** `AbstractPipe.parse`: a Pipeable comes back unchanged, any other callable
      is wrapped in a PipeableFunc, and anything else is a type error naming
      the value's type. */
  function Parse(o: Operand): (r: Result<Stage>)
    ensures r.Ok? <==> !o.NotCallable?
    ensures o.AsPipeable? ==> r == Ok(o.stage)
    ensures o.AsCallable? ==> r.Ok? && r.value.PipeableFunc? && r.value.func == o.call
    ensures o.NotCallable? ==> r == Err(NotPipeable(o.typeName))
  {
    match o
    case AsPipeable(s) => Ok(s)
    case AsCallable(c) => Ok(PipeableFunc(c))
    case NotCallable(t) => Err(NotPipeable(t))
  }

  /** Parsing what `parse` returned gives it back: the second `parse` inside
      `new_from_pipeable`, reached from `append_left`, changes nothing. */
  lemma ParseIdempotent(o: Operand)
    requires Parse(o).Ok?
    ensures Parse(AsPipeable(Parse(o).value)) == Parse(o)
  {
  }

  /** The steps a parsed stage puts into a pipe built from it alone: `Map`
      puts none, because `new_from_pipeable` drops what `MetaMap.extend`
      returns. */
  function SeedSteps(s: Stage): (r: seq<Step>)
    reads if s.PipeStage? then {s.pipe} else {}
  {
    if s.MetaMap? then [] else s.Steps()
  }

  class PipeType {
    var chain: seq<Step>

    /** A new pipe has an empty chain. */
    constructor ()
      ensures chain == []
    {
      chain := [];
    }

    /** `copy`: a new pipe whose chain equals this one element by element.
        The copy is a new object; the steps themselves are shared, as with
        Python's shallow `[:]` copy. */
    method Copy() returns (p: PipeType)
      ensures fresh(p) && p.chain == chain
    {
      p := new PipeType();
      p.chain := chain;
    }

    /** `extend(pipe)`: appends this chain onto `pipe`'s, in place, and
        returns `pipe`.  Extending a pipe with itself doubles its chain. */
    method Extend(pipe: PipeType) returns (r: PipeType)
      modifies pipe
      ensures r == pipe && pipe.chain == old(pipe.chain) + old(chain)
    {
      pipe.chain := pipe.chain + chain;
      r := pipe;
    }

    /** `new_from_pipeable`: a fresh pipe seeded with the operand's steps.
        Changes no pipe that existed before. */
    static method NewFromPipeable(o: Operand) returns (r: Result<PipeType>)
      ensures r.Err? <==> Parse(o).Err?
      ensures r.Err? ==> r.error == Parse(o).error
      ensures r.Ok? ==> fresh(r.value) && r.value.chain == SeedSteps(Parse(o).value)
      decreases if o.AsCallable? then 1 else 3
    {
      var parsed := Parse(o);
      if parsed.Err? {
        return Err(parsed.error);
      }
      var newpipe := new PipeType();
      var dropped := parsed.value.Extend(newpipe);
      r := Ok(newpipe);
    }

    /** `append_right` (`self >> other`): a fresh pipe running this chain and
        then the operand's steps.  Changes no pipe that existed before.  With
        `Map` as operand, the result is one step that maps a copy of this
        pipe. */
    method AppendRight(other: Operand) returns (r: Result<PipeType>)
      ensures r.Err? <==> Parse(other).Err?
      ensures r.Err? ==> r.error == Parse(other).error
      ensures r.Ok? ==> fresh(r.value)
      ensures r.Ok? && !Parse(other).value.MetaMap? ==>
                r.value.chain == chain + Parse(other).value.Steps()
      ensures r.Ok? && Parse(other).value.MetaMap? ==>
                |r.value.chain| == 1 && r.value.chain[0].MapApply? &&
                fresh(r.value.chain[0].target) && r.value.chain[0].target.chain == chain
    {
      var parsed := Parse(other);
      if parsed.Err? {
        return Err(parsed.error);
      }
      var newpipe := Copy();
      var extended := parsed.value.Extend(newpipe);
      r := Ok(extended);
    }

    /** `append_left` (`self << other`): a fresh pipe running the operand's
        steps and then this chain.  Changes no pipe that existed before.  With
        `Map` as operand the seed is empty, so the result only copies this
        chain. */
    method AppendLeft(other: Operand) returns (r: Result<PipeType>)
      ensures r.Err? <==> Parse(other).Err?
      ensures r.Err? ==> r.error == Parse(other).error
      ensures r.Ok? ==> fresh(r.value) && r.value.chain == SeedSteps(Parse(other).value) + chain
    {
      var parsed := Parse(other);
      if parsed.Err? {
        return Err(parsed.error);
      }
      var made := NewFromPipeable(AsPipeable(parsed.value));
      var newpipe := made.value;
      var extended := Extend(newpipe);
      r := Ok(extended);
    }

    /** `apply`: an error on an empty chain; otherwise the first step gets the
        argument and every later step gets the previous step's result.  The
        first error stops the fold.  `depth` is the recursion depth left for
        pipes that map steps apply in turn. */
    method Apply(x: Value, depth: nat) returns (r: Result<Value>)
      ensures r == Run(chain, x, depth)
      decreases depth, 2
    {
      if |chain| == 0 {
        return Err(EmptyPipe);
      }
      var steps := chain;
      r := CallStep(steps[0], x, depth);
      var i := 1;
      while i < |steps| && r.Ok?
        invariant 1 <= i <= |steps|
        invariant Fold(steps[i..], r, depth) == Run(steps, x, depth)
      {
        r := CallStep(steps[i], r.value, depth);
        i := i + 1;
      }
    }
  }

  /** Calls one step of a chain on `v`.  A map step applies its pipe to each
      element, one level of recursion deeper. */
  method CallStep(s: Step, v: Value, depth: nat) returns (r: Result<Value>)
    ensures r == Call(s, v, depth)
    decreases depth, 1
  {
    match s
    case Fn(f) =>
      r := Ok(f(v));
    case MapApply(q) =>
      if depth == 0 {
        r := Err(RecursionDepth);
      } else {
        r := MapApplicative(v).To(q, depth - 1);
      }
  }

  /** `MapApplicative`, made by `Map(seqarg)`. */
  datatype MapApplicative = MapApplicative(seqarg: Value)
  {
    /** `to(pipe)`: applies `pipe` to each element, in order, and collects
        the results; a value that is not a sequence cannot be mapped. */
    method To(p: PipeType, depth: nat) returns (r: Result<Value>)
      ensures r == MapOver(p.chain, seqarg, depth)
      decreases depth, 3
    {
      if seqarg.Num? {
        return Err(NotIterable);
      }
      var xs := seqarg.items;
      var out: seq<Value> := [];
      var i := 0;
      assert xs[i..] == xs;
      assert MapAll(p.chain, xs, depth).Ok? ==>
               [] + MapAll(p.chain, xs, depth).value == MapAll(p.chain, xs, depth).value;
      while i < |xs|
        invariant 0 <= i <= |xs|
        invariant MapAll(p.chain, xs, depth) == Prepend(out, MapAll(p.chain, xs[i..], depth))
      {
        var y := p.Apply(xs[i], depth);
        assert xs[i..][0] == xs[i] && xs[i..][1..] == xs[i + 1..];
        if y.Err? {
          return Err(y.error);
        }
        PrependTwice(out, [y.value], MapAll(p.chain, xs[i + 1..], depth));
        out := out + [y.value];
        i := i + 1;
      }
      assert xs[i..] == [] && out + [] == out;
      r := Ok(Items(out));
    }
  }

  /** `Apply(args)`, with the single argument the first step takes. */
  datatype ApplyRequest = ApplyRequest(arg: Value)
  {
    /** `to(pipe)`: what `pipe.apply(arg)` returns or raises. */
    method To(p: PipeType, depth: nat) returns (r: Result<Value>)
      ensures r == Run(p.chain, arg, depth)
    {
      r := p.Apply(arg, depth);
    }
  }

  // ---------------------------------------------------------------------
  // What applying a chain means.  These read the heap because a map step
  // reads the chain of the pipe it holds when it runs.

  /** The result of calling step `s` on `v`. */
  function Call(s: Step, v: Value, depth: nat): (r: Result<Value>)
    reads *
    decreases depth, 0, 0
  {
    match s
    case Fn(f) => Ok(f(v))
    case MapApply(q) => if depth == 0 then Err(RecursionDepth) else MapOver(q.chain, v, depth - 1)
  }

  /** Threads `acc` through the steps `cs`, in order, stopping at the first
      error. */
  function Fold(cs: seq<Step>, acc: Result<Value>, depth: nat): (r: Result<Value>)
    reads *
    decreases depth, 1, |cs|
  {
    if |cs| == 0 then acc
    else match acc
      case Err(_) => acc
      case Ok(t) => Fold(cs[1..], Call(cs[0], t, depth), depth)
  }

  /** The result of applying a pipe whose chain is `chain` to `x`. */
  function Run(chain: seq<Step>, x: Value, depth: nat): (r: Result<Value>)
    reads *
    decreases depth, 2, 0
  {
    if |chain| == 0 then Err(EmptyPipe)
    else Fold(chain[1..], Call(chain[0], x, depth), depth)
  }

  /** Applies `chain` to each of `xs` in order; the first error wins. */
  function MapAll(chain: seq<Step>, xs: seq<Value>, depth: nat): (r: Result<seq<Value>>)
    reads *
    decreases depth, 3, |xs|
  {
    if |xs| == 0 then Ok([])
    else match Run(chain, xs[0], depth)
      case Err(e) => Err(e)
      case Ok(y) => Prepend([y], MapAll(chain, xs[1..], depth))
  }

  /** Maps `chain` over a value that must be a sequence. */
  function MapOver(chain: seq<Step>, v: Value, depth: nat): (r: Result<Value>)
    reads *
    decreases depth, 4, 0
  {
    match v
    case Num(_) => Err(NotIterable)
    case Items(xs) =>
      match MapAll(chain, xs, depth)
      case Err(e) => Err(e)
      case Ok(ys) => Ok(Items(ys))
  }

  /** Puts `done` in front of a successful list of results. */
  function Prepend(done: seq<Value>, rest: Result<seq<Value>>): (r: Result<seq<Value>>)
  {
    match rest
    case Err(e) => Err(e)
    case Ok(ys) => Ok(done + ys)
  }

  /** Prepending `a` to what `b` was prepended to is prepending `a + b`. */
  lemma PrependTwice(a: seq<Value>, b: seq<Value>, rest: Result<seq<Value>>)
    ensures Prepend(a, Prepend(b, rest)) == Prepend(a + b, rest)
  {
    if rest.Ok? {
      assert a + (b + rest.value) == (a + b) + rest.value;
    }
  }

  /** Runs `chain` on the value inside `r`, passing an error through. */
  function Then(r: Result<Value>, chain: seq<Step>, depth: nat): (out: Result<Value>)
    reads *
  {
    match r
    case Err(e) => Err(e)
    case Ok(v) => Run(chain, v, depth)
  }

  // ---------------------------------------------------------------------
  // Properties of application.

  /** An empty chain is an error; `[f]` gives `f(x)`; `[f, g]` gives `g(f(x))`. */
  lemma RunShortChains(f: Step, g: Step, x: Value, depth: nat)
    ensures Run([], x, depth) == Err(EmptyPipe)
    ensures Run([f], x, depth) == Call(f, x, depth)
    ensures Run([f, g], x, depth) ==
              match Call(f, x, depth)
              case Err(e) => Err(e)
              case Ok(y) => Call(g, y, depth)
  {
    assert [f, g][1..] == [g] && [g][1..] == [];
    var first := Call(f, x, depth);
    if first.Ok? {
      assert Fold([g], first, depth) == Fold([], Call(g, first.value, depth), depth);
    }
  }

  /** Folding over `a + b` folds over `a`, then over `b`. */
  lemma {:induction false} FoldConcat(a: seq<Step>, b: seq<Step>, acc: Result<Value>, depth: nat)
    ensures Fold(a + b, acc, depth) == Fold(b, Fold(a, acc, depth), depth)
    decreases |a|
  {
    if |a| == 0 {
      assert a + b == b;
    } else if acc.Ok? {
      assert (a + b)[1..] == a[1..] + b;
      FoldConcat(a[1..], b, Call(a[0], acc.value, depth), depth);
    }
  }

  /** Applying the concatenation of two non-empty chains applies the first,
      then the second to its result: the chain `a >> b` builds runs `b(a(x))`. */
  lemma {:induction false} RunConcat(a: seq<Step>, b: seq<Step>, x: Value, depth: nat)
    requires |a| > 0 && |b| > 0
    ensures Run(a + b, x, depth) == Then(Run(a, x, depth), b, depth)
  {
    assert (a + b)[1..] == a[1..] + b;
    FoldConcat(a[1..], b, Call(a[0], x, depth), depth);
  }

  /** Mapping succeeds exactly when every element succeeds, and then the i-th
      result is the chain applied to the i-th element. */
  lemma {:induction false} MapAllElementwise(chain: seq<Step>, xs: seq<Value>, depth: nat)
    ensures MapAll(chain, xs, depth).Ok? <==>
              forall i :: 0 <= i < |xs| ==> Run(chain, xs[i], depth).Ok?
    ensures MapAll(chain, xs, depth).Ok? ==>
              |MapAll(chain, xs, depth).value| == |xs| &&
              forall i :: 0 <= i < |xs| ==>
                MapAll(chain, xs, depth).value[i] == Run(chain, xs[i], depth).value
    decreases |xs|
  {
    if |xs| > 0 {
      MapAllElementwise(chain, xs[1..], depth);
      if Run(chain, xs[0], depth).Ok? {
        forall i | 1 <= i < |xs|
          ensures Run(chain, xs[i], depth) == Run(chain, xs[1..][i - 1], depth)
        {
        }
      }
    }
  }

  /** A failed mapping reports the error of the first element that fails. */
  lemma {:induction false} MapAllFirstError(chain: seq<Step>, xs: seq<Value>, depth: nat)
    requires MapAll(chain, xs, depth).Err?
    ensures exists k :: 0 <= k < |xs| && Run(chain, xs[k], depth).Err? &&
              MapAll(chain, xs, depth).error == Run(chain, xs[k], depth).error &&
              forall j :: 0 <= j < k ==> Run(chain, xs[j], depth).Ok?
    decreases |xs|
  {
    if Run(chain, xs[0], depth).Ok? {
      MapAllFirstError(chain, xs[1..], depth);
      var k :| 0 <= k < |xs| - 1 && Run(chain, xs[1..][k], depth).Err? &&
               MapAll(chain, xs[1..], depth).error == Run(chain, xs[1..][k], depth).error &&
               forall j :: 0 <= j < k ==> Run(chain, xs[1..][j], depth).Ok?;
      assert Run(chain, xs[k + 1], depth).Err?;
      forall j | 0 <= j < k + 1
        ensures Run(chain, xs[j], depth).Ok?
      {
        if j > 0 {
          assert xs[j] == xs[1..][j - 1];
        }
      }
    }
  }

  /** `Map(s) | pipe` and the step `Map` installs: a list as long as the input
      whose i-th element is the pipe applied to the i-th input, or the error
      of the first element that fails; a number cannot be mapped. */
  lemma MapOverElementwise(chain: seq<Step>, v: Value, depth: nat)
    ensures v.Num? ==> MapOver(chain, v, depth) == Err(NotIterable)
    ensures MapOver(chain, v, depth).Ok? <==>
              v.Items? && forall i :: 0 <= i < |v.items| ==> Run(chain, v.items[i], depth).Ok?
    ensures MapOver(chain, v, depth).Ok? ==>
              MapOver(chain, v, depth).value.Items? &&
              |MapOver(chain, v, depth).value.items| == |v.items| &&
              forall i :: 0 <= i < |v.items| ==>
                MapOver(chain, v, depth).value.items[i] == Run(chain, v.items[i], depth).value
  {
    if v.Items? {
      MapAllElementwise(chain, v.items, depth);
    }
  }

  /** The one-step pipe `Map.extend(q)` returns maps `q` over its argument,
      one level of recursion deeper. */
  lemma MapStepRunsTarget(q: PipeType, v: Value, depth: nat)
    ensures Run([MapApply(q)], v, depth + 1) == MapOver(q.chain, v, depth)
    ensures Run([MapApply(q)], v, 0) == Err(RecursionDepth)
  {
  }

  // ---------------------------------------------------------------------
  // Uses of the composition operators.

  /** For pipes `a` and `b`, `a >> b` and `b << a` build equal chains: `a`'s
      steps, then `b`'s. */
  method ComposeBothWays(a: PipeType, b: PipeType) returns (right: PipeType, left: PipeType)
    ensures fresh(right) && fresh(left) && right != left
    ensures right.chain == a.chain + b.chain && left.chain == a.chain + b.chain
  {
    var r := a.AppendRight(AsPipeable(PipeStage(b)));
    var l := b.AppendLeft(AsPipeable(PipeStage(a)));
    right, left := r.value, l.value;
  }

  /** With `inc` adding one and `dbl` doubling, `Pipe >> inc >> dbl` maps 5
      to 12 and `(Pipe >> inc) << dbl` maps 5 to 11. */
  method IncAndDouble() returns (right: Result<Value>, left: Result<Value>)
    ensures right == Ok(Num(12)) && left == Ok(Num(11))
  {
    var inc := Fn((v: Value) => if v.Num? then Num(v.n + 1) else v);
    var dbl := Fn((v: Value) => if v.Num? then Num(v.n * 2) else v);
    var pipe := new PipeType();
    var withInc := pipe.AppendRight(AsCallable(inc));
    var incDbl := withInc.value.AppendRight(AsCallable(dbl));
    assert incDbl.value.chain == [inc, dbl];
    right := incDbl.value.Apply(Num(5), 0);
    RunShortChains(inc, dbl, Num(5), 0);
    var dblInc := withInc.value.AppendLeft(AsCallable(dbl));
    assert dblInc.value.chain == [dbl, inc];
    left := dblInc.value.Apply(Num(5), 0);
    RunShortChains(dbl, inc, Num(5), 0);
  }
}
