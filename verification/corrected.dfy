/**
 * The builders as their names and parameters indicate: `addOutputLayer`
 * takes `$outputLayers`, yet no builder ever extends the output stack. Here
 * each builder extends its own stack and keeps the other one. `Onions` keeps
 * the behaviour of the code; this module states what the intended behaviour
 * would give.
 */
module Corrected {
  import opened Results
  import opened Layers
  import opened Onions

  /** `addInputLayer`, keeping the receiver's output stack. */
  function AddInputLayer<T>(o: Onion<T>, a: Arg<T>): (r: Result<Onion<T>, Error>)
    ensures r.Failure? <==> a.Other?
    ensures r.Failure? ==> r.error == InvalidArgument(a.typeName + InvalidLayerSuffix)
    ensures r.Success? ==> r.value.input == o.input + Normalise(a).value
    ensures r.Success? ==> r.value.output == o.output
  {
    var layers :- Normalise(a);
    Success(Onion(o.input + layers, o.output))
  }

  /** `addOutputLayer`, extending the output stack and keeping the input stack. */
  function AddOutputLayer<T>(o: Onion<T>, a: Arg<T>): (r: Result<Onion<T>, Error>)
    ensures r.Failure? <==> a.Other?
    ensures r.Failure? ==> r.error == InvalidArgument(a.typeName + InvalidLayerSuffix)
    ensures r.Success? ==> r.value.input == o.input
    ensures r.Success? ==> r.value.output == o.output + Normalise(a).value
  {
    var layers :- Normalise(a);
    Success(Onion(o.input, o.output + layers))
  }

  /** New input layers run inside the existing ones, and the output stack still runs on the response. */
  lemma HandleAfterAddInput<T>(o: Onion<T>, a: Arg<T>, v: T, core: T -> T)
    requires !a.Other?
    ensures Handle(AddInputLayer(o, a).value, v, core)
         == Chain(o.output, Identity())(Chain(o.input, Chain(Normalise(a).value, core))(v))
  {
    ChainAppend(o.input, Normalise(a).value, core);
  }

  /** New output layers run on the core's response, inside the existing output layers; the input side is unchanged. */
  lemma HandleAfterAddOutput<T>(o: Onion<T>, a: Arg<T>, v: T, core: T -> T)
    requires !a.Other?
    ensures Handle(AddOutputLayer(o, a).value, v, core)
         == Chain(o.output, Chain(Normalise(a).value, Identity()))(Chain(o.input, core)(v))
  {
    ChainAppend(o.output, Normalise(a).value, Identity());
  }
}
