# Onion middleware pipeline — Dafny model

This project models the `Onion` class of the Nuttilea middleware library
(`src/Onion.php`). An onion is an immutable value that holds two ordered
stacks of layers: an input stack and an output stack. Each layer gets the
travelling value and a continuation, `next`, which stands for the rest of the
pipeline. The layer decides whether, when and with what to call `next`.

- `Layers` (layers.dfy) defines layers as total functions `(T, T -> T) -> T`.
  It models `createLayer` (`Wrap`), PHP's `array_reverse` and `array_reduce`,
  and the chain that `handle` builds from them (`Build`). It proves that this
  chain is the right fold `Chain`, in which layer 0 is outermost and the
  terminal function is innermost.
- `Onions` (onion.dfy) defines the onion record, the constructor (`New`) and
  the tagged builder argument `Arg`. In PHP that argument is an `Onion`, a
  `LayerInterface`, an array, or anything else. The module also defines
  `toArray`, both builders, and `handle`.
- `Corrected` (corrected.dfy) holds the builders as their names and
  parameters indicate: each extends its own stack and keeps the other one
  (see Findings).
- `Scenarios` (scenarios.dfy) defines concrete integer layers and works
  through two end-to-end runs.
- `Results` (results.dfy) is the success-or-exception value the builders
  return.

`Onions` follows the code exactly as written, in two places where the code
evidently does not do what its names say. `addOutputLayer` appends to the
input stack (src/Onion.php:63). Both builders also build their result with one
constructor argument, so the result's output stack is always the constructor's
default, empty (src/Onion.php:19, :42, :63).

## Model

| member | source | states |
|---|---|---|
| Layers.Reverse | src/Onion.php:77-78 | the reversed stack has the same length and holds element `|s|-1-i` at position `i` |
| Layers.IdentityReturnsValue | src/Onion.php:85 | `Identity`, the output chain's terminal, returns every value unchanged |
| Layers.Reduce | src/Onion.php:79-81 | definition of `array_reduce` as a left fold from the initial carry; its meaning is stated by `Layers.ReduceSnoc` |
| Layers.WrapRunsLayer | src/Onion.php:121-127 | `Wrap`, the continuation `createLayer` returns, runs the layer on the value with the given continuation as `next` |
| Layers.Build | src/Onion.php:77-81 | the chain `handle` builds by reducing the reversed stack with `createLayer` is the right fold `Chain`: layer 0 outermost, the terminal innermost |
| Layers.ReduceSnoc | src/Onion.php:79-81 | `array_reduce` is a left fold: the last element is combined last, on top of the fold of the others |
| Layers.ReversedFoldIsChain | src/Onion.php:79-81 | reducing the reversed stack with `createLayer` around a terminal gives exactly the right fold `Chain`, with layer 0 outermost and the terminal innermost (proved by induction on the stack) |
| Layers.BuildEmpty | src/Onion.php:79-81 | with no layers, the built chain is the terminal itself |
| Layers.BuildStep | src/Onion.php:121-127 | running a non-empty chain calls layer 0 with the value and, as `next`, the chain of the remaining layers |
| Layers.ChainAppend | src/Onion.php:79-81 | the chain of `a + b` is the chain of `a` wrapped around the chain of `b`: later layers sit nearer the terminal |
| Layers.ChainShortCircuit | src/Onion.php:121-127 | if the outermost layer ignores `next`, the result depends neither on the remaining layers nor on the terminal |
| Layers.CoreUnreachable | src/Onion.php:79-82 | if some layer ignores `next` and every layer outside it is extensional, the result is the same for any two terminals |
| Onions.New | src/Onion.php:19-22 | the constructor stores both stacks as given; each defaults to empty |
| Onions.ToArray | src/Onion.php:94-96 | `toArray` holds the input layers and then the output layers, each at its insertion position |
| Onions.Normalise | src/Onion.php:32-40 | an onion argument becomes its input layers followed by its output layers, a single layer becomes a one-element list, an array is taken as is, and anything else fails with InvalidArgument "<class> is not a valid onion layer." |
| Onions.AddInputLayer | src/Onion.php:31-43 | fails exactly on an invalid argument, with that message; otherwise the new input stack is the old one followed by the normalised layers, and the output stack is empty |
| Onions.AddOutputLayer | src/Onion.php:52-64 | fails exactly on an invalid argument; otherwise it extends the input stack, not the output stack, and the output stack is empty |
| Onions.AddOutputLayerIsAddInputLayer | src/Onion.php:52-64 | `addOutputLayer` gives the same outcome as `addInputLayer` for every onion and argument |
| Onions.MergeOnion | src/Onion.php:32-33 | merging an onion appends its `toArray` to the input stack in order, so its input and output layers all run before the core |
| Onions.ToArrayAfterAdd | src/Onion.php:31-43 | after a successful builder call, `toArray` is the receiver's input layers followed by the new layers |
| Onions.Handle | src/Onion.php:75-88 | `handle` runs the output stack's chain, with the identity as terminal, on the response of the input stack's chain around `core`; both chains have layer 0 outermost |
| Onions.HandleEmpty | src/Onion.php:75-88 | with both stacks empty, `handle(v, core)` is `core(v)` |
| Onions.HandleOutermostFirst | src/Onion.php:79-82 | input layer 0 is called first, with the chain of the remaining input layers around `core` as `next` |
| Onions.HandleShortCircuit | src/Onion.php:82 | if input layer 0 ignores `next`, the result does not depend on the other input layers or on `core` |
| Onions.HandleAfterAdd | src/Onion.php:42 | after either builder, the new layers run inside the receiver's input layers, nearest the core, and no output layer runs |
| Corrected.AddInputLayer | src/Onion.php:31-43 | the intended `addInputLayer`: same failures, and the input stack is extended while the output stack is kept |
| Corrected.AddOutputLayer | src/Onion.php:52-64 | the intended `addOutputLayer`: same failures, and the output stack is extended while the input stack is kept |
| Corrected.HandleAfterAddInput | src/Onion.php:31-43 | with the intended builder, new input layers run nearest the core and the output stack still runs on the response |
| Corrected.HandleAfterAddOutput | src/Onion.php:52-64 | with the intended builder, new output layers run on the core's response, inside the existing output layers |
| Scenarios.DoubleThenIncrement | src/Onion.php:75-88 | input layers `[Double, Increment]` around the identity core turn 3 into 7 |
| Scenarios.BlockShortCircuits | src/Onion.php:82 | input layers `[Block, Double]` give -1 for every value and every core |
| Scenarios.OutputLayerRunsBeforeCore | src/Onion.php:63 | a layer passed to `addOutputLayer` runs before the core (7 for core `x+1` on 3), where an output layer would give 8 |
| Scenarios.BuilderDropsOutputStack | src/Onion.php:42 | adding an empty array to an onion whose output stack is `[Double]` makes `handle(3)` give 3 instead of 6 |
| Scenarios.RejectsOtherArgument | src/Onion.php:38-40 | both builders reject a `stdClass` argument with the message "stdClass is not a valid onion layer." |

## Left out

- Element types of array arguments are not modelled. PHP only checks `is_array`, not that each element is a layer, so arrays are modelled as `seq<Layer<T>>`.
- Arrays are modelled as lists, so string keys are not modelled. `array_merge` (src/Onion.php:42, :63, :95) lets a later value with the same string key overwrite the earlier one in the earlier key's position, and the model does not do this. With such keys the length and concatenation clauses of `Onions.ToArray`, `Onions.AddInputLayer` and `Onions.AddOutputLayer` do not hold in PHP, nor does the ordering stated by `Onions.HandleAfterAdd`. Numeric keys are renumbered in iteration order, which the model matches.
- From PHP 8 on, `get_class` on a value that is not an object raises a `TypeError`, not `InvalidArgumentException`. On PHP 7.2 to 7.4 it emits a warning and returns no name, and `InvalidArgumentException` is still thrown, with the message " is not a valid onion layer.". The model assumes neither: every argument of another type gives the InvalidArgument outcome, named by its type.
- Late static binding (`new static`) and subclasses of `Onion` are not modelled. A builder's result is a plain `Onion` value.
- `createCoreFunction` wraps `core` in a closure that adds no behaviour. It is modelled as `core` itself. Dafny has no function-extensionality axiom, so a wrapper that is pointwise equal to `core` could not be proved equal to it.
- Concrete `LayerInterface` implementations are not part of this model. Layers are abstract function values; `Scenarios` adds three example layers.
- Exceptions thrown by layers or by `core` are not modelled. Layers and `core` are total functions, so such failures cannot be expressed.
- How many times a layer calls `next` is not modelled. This is a property of side effects, and the model is a pure function of the values.
- The receiver of a builder is unchanged by construction: onions are immutable values here, so no lemma states it.
- Layers.CoreUnreachable: requires every layer outside the short-circuiting one to be `Extensional`. Dafny has no function extensionality, so a layer given two pointwise-equal continuations could in principle tell them apart. The unconditional statement holds only for the outermost layer, which `Layers.ChainShortCircuit` states.

## Findings

| source | as written | input that shows it | evidently intended | confidence | as-written member | corrected member |
|---|---|---|---|---|---|---|
| src/Onion.php:63 | `addOutputLayer` merges the new layers into the input stack | empty onion, `addOutputLayer(Double)`, core `x+1`, value 3: the layer runs before the core and the result is 7 | extend the output stack, so the layer runs on the core's response and the result is 8 | not executed; high | Scenarios.OutputLayerRunsBeforeCore | Corrected.AddOutputLayer |
| src/Onion.php:42 | both builders pass one argument to the constructor, so the receiver's output stack is dropped | onion with output stack `[Double]`, `addInputLayer([])`, identity core, value 3: the result is 3, where the receiver gives 6 | keep the receiver's output stack | not executed; medium | Scenarios.BuilderDropsOutputStack | Corrected.AddInputLayer |

The intent is read off the source itself. The method is named
`addOutputLayer`, and its parameter is `$outputLayers` (src/Onion.php:52).
The `$outputLayers` field (src/Onion.php:17) is read by `handle` and
`toArray`, but no builder ever extends it (src/Onion.php:42, :63). Both
docblocks say only "Add layer(s) or Onion" (src/Onion.php:25, :46), which
promises no removal of existing layers.

The corrected behaviour is proved in `Corrected.HandleAfterAddOutput` and
`Corrected.HandleAfterAddInput`. `Onions` keeps the behaviour as written,
because that is what the library does.
