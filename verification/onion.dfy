/**
 * The `Onion` middleware pipeline: an immutable pair of layer stacks, the
 * builders that extend it, `toArray`, and `handle`.
 *
 * The builders are modelled as the code behaves: the result is always
 * constructed with one argument, so its output stack is the constructor's
 * default `[]`, and `addOutputLayer` extends the input stack.
 */
module Onions {
  import opened Results
  import opened Layers

  /** An onion: the input stack runs around the core, the output stack around the response. */
  datatype Onion<!T> = Onion(input: seq<Layer<T>>, output: seq<Layer<T>>)

  /** The constructor; the output stack defaults to empty. */
  function New<T>(input: seq<Layer<T>> := [], output: seq<Layer<T>> := []): (r: Onion<T>)
    ensures r.input == input && r.output == output
  {
    Onion(input, output)
  }

  /** The argument of a builder, after PHP's runtime type tests. */
  datatype Arg<!T> =
    | OnionArg(onion: Onion<T>)
    | LayerArg(layer: Layer<T>)
    | ArrayArg(layers: seq<Layer<T>>)
    | Other(typeName: string)

  datatype Error = InvalidArgument(message: string)

  const InvalidLayerSuffix := " is not a valid onion layer."

  /** `toArray`: the input layers, then the output layers, each in insertion order. */
  function ToArray<T>(o: Onion<T>): (r: seq<Layer<T>>)
    ensures |r| == |o.input| + |o.output|
    ensures forall i :: 0 <= i < |o.input| ==> r[i] == o.input[i]
    ensures forall i :: 0 <= i < |o.output| ==> r[|o.input| + i] == o.output[i]
  {
    o.input + o.output
  }

  /** The shared argument handling of both builders: the layers to append, or the exception. */
  function Normalise<T>(a: Arg<T>): (r: Result<seq<Layer<T>>, Error>)
    ensures r.Failure? <==> a.Other?
    ensures a.OnionArg? ==> r == Success(a.onion.input + a.onion.output)
    ensures a.LayerArg? ==> r == Success([a.layer])
    ensures a.ArrayArg? ==> r == Success(a.layers)
    ensures a.Other? ==> r == Failure(InvalidArgument(a.typeName + InvalidLayerSuffix))
  {
    match a
    case OnionArg(p) => Success(ToArray(p))
    case LayerArg(l) => Success([l])
    case ArrayArg(ls) => Success(ls)
    case Other(name) => Failure(InvalidArgument(name + InvalidLayerSuffix))
  }

  /** `addInputLayer`: a new onion whose input stack gains the argument's layers. */
  function AddInputLayer<T>(o: Onion<T>, a: Arg<T>): (r: Result<Onion<T>, Error>)
    ensures r.Failure? <==> a.Other?
    ensures r.Failure? ==> r.error == InvalidArgument(a.typeName + InvalidLayerSuffix)
    ensures r.Success? ==> r.value.input == o.input + Normalise(a).value
    ensures r.Success? ==> r.value.output == []
  {
    var layers :- Normalise(a);
    Success(New(o.input + layers))
  }

  /** `addOutputLayer`: as written, it also appends to the input stack. */
  function AddOutputLayer<T>(o: Onion<T>, a: Arg<T>): (r: Result<Onion<T>, Error>)
    ensures r.Failure? <==> a.Other?
    ensures r.Failure? ==> r.error == InvalidArgument(a.typeName + InvalidLayerSuffix)
    ensures r.Success? ==> r.value.input == o.input + Normalise(a).value
    ensures r.Success? ==> r.value.output == []
  {
    var layers :- Normalise(a);
    Success(New(o.input + layers))
  }

  /**
   * `handle`: run `v` through the input chain around `core`, then the output
   * chain around the identity. The result is the output stack's right fold
   * applied to the input stack's right fold, layer 0 outermost in each.
   */
  function Handle<T>(o: Onion<T>, v: T, core: T -> T): (r: T)
    ensures r == Chain(o.output, Identity())(Chain(o.input, core)(v))
  {
    var response := Build(o.input, core)(v);
    Build(o.output, Identity())(response)
  }

  /** The two builders are the same operation. */
  lemma AddOutputLayerIsAddInputLayer<T>(o: Onion<T>, a: Arg<T>)
    ensures AddOutputLayer(o, a) == AddInputLayer(o, a)
  {
  }

  /**
   * Merging an onion appends its `toArray` to the input stack, in order, so
   * the merged onion's input and output layers all run before the core.
   */
  lemma MergeOnion<T>(o: Onion<T>, p: Onion<T>, v: T, core: T -> T)
    ensures AddInputLayer(o, OnionArg(p)) == Success(Onion(o.input + ToArray(p), []))
    ensures Handle(AddInputLayer(o, OnionArg(p)).value, v, core)
         == Chain(o.input, Chain(p.input, Chain(p.output, core)))(v)
  {
    HandleAfterAdd(o, OnionArg(p), v, core);
    ChainAppend(p.input, p.output, core);
  }

  /** A successful builder call followed by `toArray` yields the receiver's input layers, then the new ones. */
  lemma ToArrayAfterAdd<T>(o: Onion<T>, a: Arg<T>)
    requires !a.Other?
    ensures ToArray(AddInputLayer(o, a).value) == o.input + Normalise(a).value
    ensures ToArray(AddOutputLayer(o, a).value) == o.input + Normalise(a).value
  {
  }

  /** An onion without layers just runs the core. */
  lemma HandleEmpty<T>(o: Onion<T>, v: T, core: T -> T)
    requires o.input == [] && o.output == []
    ensures Handle(o, v, core) == core(v)
  {
    BuildEmpty(core);
    BuildEmpty(Identity<T>());
  }

  /** Input layer 0 is outermost: it is called first, with the chain of the remaining input layers as `next`. */
  lemma HandleOutermostFirst<T>(o: Onion<T>, v: T, core: T -> T)
    requires |o.input| > 0
    ensures Handle(o, v, core)
         == Chain(o.output, Identity())(o.input[0].handle(v, Chain(o.input[1..], core)))
  {
  }

  /** A first input layer that ignores `next` makes the rest of the input stack and the core irrelevant. */
  lemma HandleShortCircuit<T(!new)>(o: Onion<T>, rest: seq<Layer<T>>, v: T, core: T -> T, other: T -> T)
    requires |o.input| > 0 && IgnoresNext(o.input[0])
    ensures Handle(o, v, core) == Handle(Onion([o.input[0]] + rest, o.output), v, other)
  {
    var o2 := Onion([o.input[0]] + rest, o.output);
    ChainShortCircuit(o.input, o2.input, core, other, v);
  }

  /** Layers added by a builder run inside the receiver's input layers, nearest the core; the receiver's output stack no longer runs. */
  lemma HandleAfterAdd<T>(o: Onion<T>, a: Arg<T>, v: T, core: T -> T)
    requires !a.Other?
    ensures Handle(AddInputLayer(o, a).value, v, core) == Chain(o.input, Chain(Normalise(a).value, core))(v)
    ensures Handle(AddOutputLayer(o, a).value, v, core) == Chain(o.input, Chain(Normalise(a).value, core))(v)
  {
    var r := AddInputLayer(o, a).value;
    ChainAppend(o.input, Normalise(a).value, core);
  }
}
