# Pipes: a verified model of `sfpd/pipe.py`

`sfpd/pipe.py` is a small algebra for building pipelines of unary callables.
A `PipeType` owns a mutable list, its chain of callables. A Pipeable is a stage
that can extend a chain:

- a `PipeableFunc` wrapping one function,
- a pipe,
- the `MetaMap` singleton `Map`.

`parse` normalises any operand into a Pipeable. `append_right` (`>>`) and
`append_left` (`<<`) build a fresh pipe by copying one chain and appending the
other onto it in place. `apply` folds an argument through the chain and
rejects an empty chain. Two applicatives bind arguments and run a pipe on them
when piped into it:

- `MapApplicative`, made by `Map(seq)`, runs the pipe on every element.
- `Apply`, made by `Apply(args)`, runs the pipe on the arguments.

The model is the single Dafny module `Pipes` in `pipe.dfy`:

- `Value` is what flows through a pipe: a number, or a sequence that a map step
  can iterate.
- `Step` is a callable in a chain: a user function `Fn(f)`, or the `map_apply`
  closure `MapApply(target)`. The closure holds the target pipe itself, so it
  sees later changes to that pipe, as the Python closure does.
- `Stage` is the Pipeable: `PipeableFunc`, `PipeStage` or `MetaMap`.
- `Operand` is what `parse` can be handed: a Pipeable, another callable, or a
  value that is neither.
- `PipeType` is a class whose `chain` field the composition methods update in
  place. `fresh` in their contracts states that a composed pipe is a new
  object whose chain is a copied sequence of the same steps. The steps
  themselves are shared, as with Python's shallow `[:]` copy; that includes
  the target pipe a map step holds. A method with no `modifies` clause changes no pipe
  that existed before the call.
- `Run`, `Fold`, `Call`, `MapAll` and `MapOver` say what applying a chain
  means. `PipeType.Apply` and the `To` methods are proved equal to them.
  They read the heap, because a map step reads its target's chain when it runs.
- Errors are a `Result` value instead of raised exceptions:
  - `NotPipeable(type)` when `parse` fails,
  - `EmptyPipe` when `apply` gets an empty chain,
  - `NotIterable` when a map meets a value that is not a sequence,
  - `RecursionDepth` when nested pipe applications exceed the model's depth
    budget (see "Left out").

Two behaviours of the code are kept as written:

- `new_from_pipeable` returns its seed pipe and drops the value that
  `extend` returns. `MetaMap.extend` does not touch its argument, so a pipe
  seeded from `Map` stays empty. As a result, `p << Map` only copies `p`.
- `p >> Map` is a one-step pipe that maps a copy of `p`, the stages to the
  left of `Map`, over its argument. It does not map the stage that comes next
  in the expression.

## Model

| member | source | states |
|---|---|---|
| `Pipes.Parse` | sfpd/pipe.py:33-40 | A Pipeable comes back unchanged. Any other callable comes back wrapped in a `PipeableFunc` holding it. Anything else is the error `NotPipeable` naming its type. The result is an error exactly when the operand is not callable. |
| `Pipes.ParseIdempotent` | sfpd/pipe.py:43-44 | Parsing an already parsed stage returns it unchanged, so the second `parse` that `append_left` reaches through `new_from_pipeable` changes nothing. |
| `Pipes.Stage.Extend` | sfpd/pipe.py:17-19 | `PipeableFunc.extend` appends exactly its one function to the target's chain and returns the target. A pipe stage appends its whole chain, as `PipeType.extend` (lines 84-86) does. `MetaMap.extend` (lines 115-118) leaves the target unchanged and returns a fresh pipe whose only step maps the target. |
| `Pipes.Stage.Bind` | sfpd/pipe.py:120-121 | `Map(s)` only binds `s` in a `MapApplicative`. It transforms nothing. |
| `Pipes.PipeType.constructor` | sfpd/pipe.py:72-73 | A new pipe has an empty chain. |
| `Pipes.PipeType.Copy` | sfpd/pipe.py:79-82 | The copy is a fresh object, and its chain equals the original element by element. Being fresh, later appends to it cannot reach the original. |
| `Pipes.PipeType.Extend` | sfpd/pipe.py:84-86 | The target's chain becomes its old chain followed by this pipe's old chain, so the old chain stays a prefix. The target itself is returned. This also holds when a pipe extends itself. |
| `Pipes.PipeType.NewFromPipeable` | sfpd/pipe.py:42-47 | A parse error is returned unchanged. Otherwise the result is a fresh pipe seeded with the stage's steps, and that seed is empty for `Map`. No existing pipe changes. |
| `Pipes.PipeType.AppendRight` | sfpd/pipe.py:49-52 | A parse error is returned unchanged. Otherwise the result is a fresh pipe whose chain is this chain followed by the operand's steps, and neither operand's chain changes. For `Map` the result is one map step over a fresh copy of this pipe. |
| `Pipes.PipeType.AppendLeft` | sfpd/pipe.py:54-57 | A parse error is returned unchanged. Otherwise the result is a fresh pipe whose chain is the operand's seed steps followed by this chain, and neither operand's chain changes. For `Map` that is a copy of this chain. |
| `Pipes.PipeType.Apply` | sfpd/pipe.py:88-95 | The loop computes `Run` of the chain: an empty chain is `EmptyPipe`, and otherwise the first step gets the argument and each later step gets the previous result. The first error stops the fold. |
| `Pipes.CallStep` | sfpd/pipe.py:92-94 | Calling a chain element gives `Call`: a user function's value, or, for a map step, the target pipe mapped over the argument at one less recursion depth. |
| `Pipes.MapApplicative.To` | sfpd/pipe.py:110-111 | A number cannot be mapped (`NotIterable`). Otherwise the loop applies the pipe to each element in input order and gives `MapOver` of the pipe's chain. |
| `Pipes.ApplyRequest.To` | sfpd/pipe.py:132-133 | `Apply(x).to(p)` returns exactly what applying `p` to `x` returns, error included. |
| `Pipes.RunShortChains` | sfpd/pipe.py:88-95 | `[]` gives `EmptyPipe`, `[f]` gives `f(x)`, and `[f, g]` gives `g(f(x))`, with an error from `f` passed through. |
| `Pipes.FoldConcat` | sfpd/pipe.py:92-94 | Folding over `a + b` is folding over `a`, then over `b`. |
| `Pipes.RunConcat` | sfpd/pipe.py:88-95 | For non-empty chains, applying `a + b` (the chain `AppendRight` builds) to `x` is applying `b` to the result of applying `a`, with an error from `a` passed through. |
| `Pipes.MapAllElementwise` | sfpd/pipe.py:110-111 | Mapping a chain over a list succeeds exactly when every element succeeds. Then the result has the input's length, and its i-th element is the chain applied to the i-th input. |
| `Pipes.MapAllFirstError` | sfpd/pipe.py:110-111 | A failed mapping reports the error of the first element that fails, and every element before it succeeds. |
| `Pipes.MapOverElementwise` | sfpd/pipe.py:116-117 | `map(pipe, argseq)` on a number is `NotIterable`. On a sequence it succeeds exactly when every element does, and then gives a sequence of the same length whose i-th element is the pipe applied to the i-th input. |
| `Pipes.MapStepRunsTarget` | sfpd/pipe.py:115-118 | The one-step pipe that `Map.extend(q)` returns maps `q`'s current chain over its argument at one less depth. With no depth left it is `RecursionDepth`. |
| `Pipes.ComposeBothWays` | sfpd/pipe.py:49-57 | For pipes `a` and `b`, `a >> b` and `b << a` are two distinct fresh pipes with the same chain: `a`'s steps, then `b`'s. |
| `Pipes.IncAndDouble` | sfpd/pipe.py:49-57 | With `inc` adding one and `dbl` doubling, `Pipe >> inc >> dbl` maps 5 to 12, and `(Pipe >> inc) << dbl` maps 5 to 11. |

## Left out

- `Pipes.PipeType.Apply`: the first step takes one argument of type `Value`. The `*args`/`**kwargs` that Python passes to the first step are not modelled. The same holds for `Pipes.ApplyRequest.To`, whose request binds one argument.
- `Pipes.PipeType.Apply`: the `depth` parameter has no counterpart in the source. It bounds how deeply map steps may nest their pipe applications, because the model runs each map step eagerly and would otherwise not terminate. In the source a map step returns a lazy iterator and `apply` calls each step once, so no such nesting happens unless something consumes the iterator. Hence a pipe that maps itself after growing its input, which `Map.extend(q)` followed by `extend(q)` can build, fails with `RecursionDepth` at every depth in the model, while in Python it returns an iterator nobody consumes and raises nothing. The same holds for `Pipes.CallStep` and `Pipes.MapApplicative.To`.
- `Pipes.CallStep`: `map_apply` returns a lazy `map` iterator. The model's map step runs every nested application at once and returns the finished sequence. So the model reports `RecursionDepth`, `EmptyPipe` or `NotIterable` from inside a map step where Python returns an iterator that nobody has consumed and raises nothing: for instance, the chain `[map over q, f]` with an empty `q` gives `EmptyPipe` in the model, while in Python `f` just receives the unconsumed iterator. When the iterator is consumed, an element's error appears in Python at that point, not when the step runs.
- User callables are total functions `Value -> Value`. Exceptions they raise, which the source only propagates, are not modelled.
- Python's dynamic dispatch (`isinstance`, `callable`) is not modelled. Instead, the caller's operand arrives already classified as an `Operand`.
- `Pipes.MapApplicative.To` and `Pipes.ApplyRequest.To` accept only a pipe. Python's `map` would also take a bare function, which is not modelled.
- Values are numbers and sequences only. Other iterables (strings, dicts, generators) are not modelled.
- The abstract stubs that raise `NotImplemented` (`Pipeable`, `AbstractPipe`, `AbstractApplicative`) are left out, and so are the unused `content` and `_direct_extend`. Nothing reaches them.
- The operator aliases `__rshift__`, `__lshift__`, `__or__` and `__call__` are left out. They are the same calls as `AppendRight`, `AppendLeft`, `To` and `Apply`.
- The module-level singletons are left out. `Map` is the `MetaMap` value. `Pipe` is an empty `PipeType`, built with `new PipeType()` where it is needed.
