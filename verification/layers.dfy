/**
 * Layers and the continuation chains built from them.
 *
 * A layer receives the value travelling through the onion and `next`, the
 * rest of the pipeline, and decides whether, when and with what to call it.
 * `Onion::handle` builds such a chain by reducing the reversed layer list
 * around a terminal function; this module models that construction
 * (`Build`) and proves it equal to the plain right fold (`Chain`).
 */
module Layers {

  /** A middleware layer (`LayerInterface::handle`), as a total function. */
  datatype Layer<!T> = Layer(handle: (T, T -> T) -> T)

  /** The terminal of the output chain: returns its argument. */
  function Identity<T>(): T -> T {
    (x: T) => x
  }

  /** `array_reverse` on a list. */
  function Reverse<X>(s: seq<X>): (r: seq<X>)
    ensures |r| == |s|
    ensures forall i :: 0 <= i < |s| ==> r[i] == s[|s| - 1 - i]
  {
    if |s| == 0 then [] else Reverse(s[1..]) + [s[0]]
  }

  /**
   * `array_reduce`: a left fold of `f` over `s`, starting from `init`.
   * `ReduceSnoc` states that the last element is combined last.
   */
  function Reduce<A, X>(s: seq<X>, f: (A, X) -> A, init: A): A
    decreases |s|
  {
    if |s| == 0 then init else Reduce(s[1..], f, f(init, s[0]))
  }

  /** `createLayer`: the continuation that runs `layer` with `next` as the rest. */
  function Wrap<T>(next: T -> T, layer: Layer<T>): T -> T {
    (v: T) => layer.handle(v, next)
  }

  /** The continuation chain as a right fold: `layers[0]` outermost, `terminal` innermost. */
  function Chain<T>(layers: seq<Layer<T>>, terminal: T -> T): T -> T
    decreases |layers|
  {
    if |layers| == 0 then terminal else Wrap(Chain(layers[1..], terminal), layers[0])
  }

  /**
   * The chain as `handle` builds it: reduce the reversed stack with
   * `createLayer`. It is the right fold, layer 0 outermost.
   */
  function Build<T>(layers: seq<Layer<T>>, terminal: T -> T): (r: T -> T)
    ensures r == Chain(layers, terminal)
  {
    ReversedFoldIsChain(layers, terminal);
    Reduce(Reverse(layers), Wrap, terminal)
  }

  /** A layer that returns without consulting its continuation. */
  ghost predicate IgnoresNext<T(!new)>(l: Layer<T>) {
    forall v, n1, n2 :: l.handle(v, n1) == l.handle(v, n2)
  }

  /** A layer whose result depends only on what its continuation computes, not on which function value it is. */
  ghost predicate Extensional<T(!new)>(l: Layer<T>) {
    forall v, n1: T -> T, n2: T -> T ::
      (forall x :: n1(x) == n2(x)) ==> l.handle(v, n1) == l.handle(v, n2)
  }

  /** The output chain's terminal hands back the value it is given. */
  lemma IdentityReturnsValue<T>(x: T)
    ensures Identity()(x) == x
  {
  }

  /** The continuation `createLayer` returns runs the layer with the given continuation as `next`. */
  lemma WrapRunsLayer<T>(next: T -> T, layer: Layer<T>, v: T)
    ensures Wrap(next, layer)(v) == layer.handle(v, next)
  {
  }

  /** Folding one more element from the left is applying `f` last. */
  lemma {:induction false} ReduceSnoc<A, X>(s: seq<X>, x: X, f: (A, X) -> A, init: A)
    ensures Reduce(s + [x], f, init) == f(Reduce(s, f, init), x)
    decreases |s|
  {
    if |s| == 0 {
      assert (s + [x])[1..] == [];
    } else {
      assert (s + [x])[1..] == s[1..] + [x];
      ReduceSnoc(s[1..], x, f, f(init, s[0]));
    }
  }

  /** Reducing the reversed stack with `createLayer` builds exactly the right fold. */
  lemma {:induction false} ReversedFoldIsChain<T>(layers: seq<Layer<T>>, terminal: T -> T)
    ensures Reduce(Reverse(layers), Wrap, terminal) == Chain(layers, terminal)
    decreases |layers|
  {
    if |layers| > 0 {
      var rest := layers[1..];
      calc {
        Reduce(Reverse(layers), Wrap, terminal);
        Reduce(Reverse(rest) + [layers[0]], Wrap, terminal);
        { ReduceSnoc(Reverse(rest), layers[0], Wrap, terminal); }
        Wrap(Reduce(Reverse(rest), Wrap, terminal), layers[0]);
        { ReversedFoldIsChain(rest, terminal); }
        Chain(layers, terminal);
      }
    }
  }

  /** With no layers, the built chain is the terminal itself. */
  lemma BuildEmpty<T>(terminal: T -> T)
    ensures Build([], terminal) == terminal
  {
  }

  /** Running the built chain calls `layers[0]` first, handing it the chain of the remaining layers. */
  lemma BuildStep<T>(layers: seq<Layer<T>>, terminal: T -> T, v: T)
    requires |layers| > 0
    ensures Build(layers, terminal)(v) == layers[0].handle(v, Build(layers[1..], terminal))
  {
  }

  /** Chaining a concatenation nests the second chain inside the first. */
  lemma {:induction false} ChainAppend<T>(a: seq<Layer<T>>, b: seq<Layer<T>>, terminal: T -> T)
    ensures Chain(a + b, terminal) == Chain(a, Chain(b, terminal))
    decreases |a|
  {
    if |a| == 0 {
      assert a + b == b;
    } else {
      assert (a + b)[1..] == a[1..] + b;
      ChainAppend(a[1..], b, terminal);
    }
  }

  /** If the outermost layer ignores `next`, neither the rest of the stack nor the terminal matters. */
  lemma ChainShortCircuit<T(!new)>(layers: seq<Layer<T>>, others: seq<Layer<T>>,
                                  t1: T -> T, t2: T -> T, v: T)
    requires |layers| > 0 && |others| > 0 && others[0] == layers[0]
    requires IgnoresNext(layers[0])
    ensures Chain(layers, t1)(v) == Chain(others, t2)(v)
  {
  }

  /**
   * If layer `k` ignores `next` and every layer outside it is extensional,
   * the terminal is never reached: the chain gives the same result for any
   * two terminals.
   */
  lemma {:induction false} CoreUnreachable<T(!new)>(layers: seq<Layer<T>>, k: nat,
                                                    t1: T -> T, t2: T -> T)
    requires k < |layers|
    requires IgnoresNext(layers[k])
    requires forall i :: 0 <= i < k ==> Extensional(layers[i])
    ensures forall v :: Chain(layers, t1)(v) == Chain(layers, t2)(v)
    decreases k
  {
    if k > 0 {
      CoreUnreachable(layers[1..], k - 1, t1, t2);
      assert Extensional(layers[0]);
    }
  }
}
