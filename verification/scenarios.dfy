/** Concrete integer layers, two end-to-end runs, and inputs that expose the builders' behaviour. */
module Scenarios {
  import opened Results
  import opened Layers
  import opened Onions
  import Corrected

  /** Passes twice the value on. */
  const Double: Layer<int> := Layer((v: int, next: int -> int) => next(v * 2))

  /** Passes the value plus one on. */
  const Increment: Layer<int> := Layer((v: int, next: int -> int) => next(v + 1))

  /** Answers -1 without calling `next`. */
  const Block: Layer<int> := Layer((v: int, next: int -> int) => -1)

  /** `[Double, Increment]` around the identity core turns 3 into 7: doubling happens first. */
  lemma DoubleThenIncrement()
    ensures Handle(Onion([Double, Increment], []), 3, Identity()) == 7
  {
    var o := Onion([Double, Increment], []);
    var id: int -> int := Identity();
    assert o.input[1..] == [Increment];
    assert o.input[1..][1..] == [];
    var inner := Chain([Increment], id);
    assert [Increment][1..] == [];
    assert Chain([], id) == id;
    assert id(7) == 7;
    assert inner(6) == 7;
    assert Chain(o.input, id)(3) == inner(6);
    assert Handle(o, 3, id) == Chain([], id)(7);
  }

  /** A blocking first layer answers -1 whatever follows it and whatever the core is. */
  lemma BlockShortCircuits(core: int -> int, v: int)
    ensures Handle(Onion([Block, Double], []), v, core) == -1
  {
    var o := Onion([Block, Double], []);
  }

  /** A layer given to `addOutputLayer` runs before the core: 3 is doubled, then incremented, giving 7; as an output layer it would give 8. */
  lemma OutputLayerRunsBeforeCore()
    ensures Handle(AddOutputLayer(New(), LayerArg(Double)).value, 3, (x: int) => x + 1) == 7
    ensures Handle(Corrected.AddOutputLayer(New(), LayerArg(Double)).value, 3, (x: int) => x + 1) == 8
  {
    var inc := (x: int) => x + 1;
    HandleAfterAdd(New(), LayerArg(Double), 3, inc);
    Corrected.HandleAfterAddOutput(New(), LayerArg(Double), 3, inc);
    assert [Double][1..] == [];
  }

  /** Adding no layers to an onion with an output layer drops that layer: 3 comes back as 3 instead of 6. */
  lemma BuilderDropsOutputStack()
    ensures Handle(Onion([], [Double]), 3, Identity()) == 6
    ensures Handle(AddInputLayer(Onion([], [Double]), ArrayArg([])).value, 3, Identity()) == 3
    ensures Handle(Corrected.AddInputLayer(Onion([], [Double]), ArrayArg([])).value, 3, Identity()) == 6
  {
    var o := Onion([], [Double]);
    HandleAfterAdd(o, ArrayArg([]), 3, Identity());
    Corrected.HandleAfterAddInput(o, ArrayArg([]), 3, Identity());
    assert [Double][1..] == [];
  }

  /** An argument of any other type is rejected by both builders with the class name in the message. */
  lemma RejectsOtherArgument(o: Onion<int>)
    ensures AddInputLayer(o, Other("stdClass")) == Failure(InvalidArgument("stdClass is not a valid onion layer."))
    ensures AddOutputLayer(o, Other("stdClass")) == Failure(InvalidArgument("stdClass is not a valid onion layer."))
  {
    assert "stdClass" + InvalidLayerSuffix == "stdClass is not a valid onion layer.";
  }
}
