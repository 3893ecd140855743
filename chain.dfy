/**
 * A brick's collision strategy as the factory assembles it: the base
 * RemoveBrickStrategy, wrapped by zero or more decorators
 * (RemoveBrickStrategyDecorator subclasses). Each decorator holds exactly one
 * inner strategy in a final field, so a chain is an immutable value.
 */
module Chain {

  /** Identity of the game-object collection a RemoveBrickStrategy was built with. */
  type CollectionRef = nat

  /** The effect a decorator adds after forwarding to its inner strategy. */
  datatype Effect = PuckSpawn | AddPaddle | ChangeCamera | WidenOrNarrow

  datatype Strategy =
    | RemoveBrick(collection: CollectionRef)
    | Decorated(effect: Effect, inner: Strategy)

  /** The decorators of a chain, innermost first: the order in which their effects run. */
  function Decorators(s: Strategy): seq<Effect>
  {
    match s
    case RemoveBrick(_) => []
    case Decorated(e, inner) => Decorators(inner) + [e]
  }

  /** The number of RemoveBrickStrategy nodes in a chain. */
  function BaseCount(s: Strategy): nat
  {
    match s
    case RemoveBrick(_) => 1
    case Decorated(_, inner) => BaseCount(inner)
  }

  /** The node every decorator ultimately forwards to. */
  function Innermost(s: Strategy): (base: Strategy)
    ensures base.RemoveBrick?
    ensures BaseCount(base) == 1
  {
    match s
    case RemoveBrick(_) => s
    case Decorated(_, inner) => Innermost(inner)
  }

  /**
   * getGameObjectCollection: a decorator answers with its inner strategy's
   * collection; the base answers with its own.
   */
  function GameObjectCollection(s: Strategy): CollectionRef
  {
    match s
    case RemoveBrick(c) => c
    case Decorated(_, inner) => GameObjectCollection(inner)
  }

  /** Builds the chain that wraps a base over `c` with `effects`, innermost first. */
  function Wrap(c: CollectionRef, effects: seq<Effect>): Strategy
    decreases |effects|
  {
    if effects == [] then RemoveBrick(c)
    else Decorated(effects[|effects| - 1], Wrap(c, effects[..|effects| - 1]))
  }

  /** Every chain has exactly one RemoveBrickStrategy, and it is the innermost node. */
  lemma {:induction false} ExactlyOneBase(s: Strategy)
    ensures BaseCount(s) == 1
    ensures s.RemoveBrick? <==> Decorators(s) == []
  {
    match s
    case RemoveBrick(_) =>
    case Decorated(_, inner) => ExactlyOneBase(inner);
  }

  /** Every layer of a chain spawns into the collection of the base it wraps. */
  lemma {:induction false} CollectionIsBase(s: Strategy)
    ensures GameObjectCollection(s) == Innermost(s).collection
  {
    match s
    case RemoveBrick(_) =>
    case Decorated(_, inner) => CollectionIsBase(inner);
  }

  /** A chain is exactly its base's collection plus its list of decorators. */
  lemma {:induction false} ChainRoundTrip(s: Strategy)
    ensures Wrap(GameObjectCollection(s), Decorators(s)) == s
  {
    match s
    case RemoveBrick(_) =>
    case Decorated(e, inner) =>
      ChainRoundTrip(inner);
      var es := Decorators(inner) + [e];
      assert es[..|es| - 1] == Decorators(inner);
  }

  /** Wrapping produces a chain whose decorators and collection are the ones given. */
  lemma {:induction false} WrapRoundTrip(c: CollectionRef, effects: seq<Effect>)
    ensures Decorators(Wrap(c, effects)) == effects
    ensures GameObjectCollection(Wrap(c, effects)) == c
    decreases |effects|
  {
    if effects != [] {
      WrapRoundTrip(c, effects[..|effects| - 1]);
      assert effects[..|effects| - 1] + [effects[|effects| - 1]] == effects;
    }
  }
}
