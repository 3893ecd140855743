/**
 * BrickStrategyFactory.getStrategy: the decision tree that picks, from
 * uniformly drawn indices into a table of six labels, the chain of collision
 * strategies one brick receives. The random draws are parameters.
 */
module StrategyFactory {
  import opened Wrappers
  import opened Chain

  datatype Label =
    | RemoveBrickLabel
    | PuckLabel
    | AddPaddleLabel
    | ChangeCameraLabel
    | WidenOrNarrowLabel
    | DoubleLabel

  /** collisionStrategiesStrings: index 0 is Remove, index 5 (the last) is Double. */
  const STRATEGY_LABELS: seq<Label> :=
    [RemoveBrickLabel, PuckLabel, AddPaddleLabel, ChangeCameraLabel, WidenOrNarrowLabel, DoubleLabel]

  /**
   * The values returned by the up to six calls to Random.nextInt made by one
   * getStrategy call: one bounded by the table length, two by the length
   * minus 1, three by the length minus 2. Draws a path does not make are ignored.
   */
  datatype Draws = Draws(first: int, second1: int, second2: int, third1: int, third2: int, third3: int)

  /** What Random.nextInt(bound) guarantees for each draw. */
  predicate InRange(d: Draws)
  {
    && 0 <= d.first < |STRATEGY_LABELS|
    && 0 <= d.second1 < |STRATEGY_LABELS| - 1
    && 0 <= d.second2 < |STRATEGY_LABELS| - 1
    && 0 <= d.third1 < |STRATEGY_LABELS| - 2
    && 0 <= d.third2 < |STRATEGY_LABELS| - 2
    && 0 <= d.third3 < |STRATEGY_LABELS| - 2
  }

  /** The label a decorator is selected by. */
  function LabelOf(e: Effect): (l: Label)
    ensures l != RemoveBrickLabel && l != DoubleLabel
  {
    match e
    case PuckSpawn => PuckLabel
    case AddPaddle => AddPaddleLabel
    case ChangeCamera => ChangeCameraLabel
    case WidenOrNarrow => WidenOrNarrowLabel
  }

  /** The table index of a decorator's label. */
  function IndexOf(e: Effect): (i: nat)
    ensures 1 <= i < |STRATEGY_LABELS| - 1 && STRATEGY_LABELS[i] == LabelOf(e)
  {
    match e
    case PuckSpawn => 1
    case AddPaddle => 2
    case ChangeCamera => 3
    case WidenOrNarrow => 4
  }

  /**
   * getStrategyAccordingString: the Remove label yields a fresh bare
   * RemoveBrickStrategy (the argument is dropped), each decorator label wraps
   * the argument, and the default branch (Double) yields null.
   */
  function ByLabel(c: CollectionRef, chosen: Label, toBeDecorated: Strategy): (r: Option<Strategy>)
    ensures r.None? <==> chosen == DoubleLabel
    ensures r.Some? ==> GameObjectCollection(r.value) == c || GameObjectCollection(r.value) == GameObjectCollection(toBeDecorated)
    ensures chosen == RemoveBrickLabel ==> r == Some(RemoveBrick(c))
    ensures forall e :: chosen == LabelOf(e) ==> r == Some(Decorated(e, toBeDecorated))
    ensures chosen != RemoveBrickLabel && chosen != DoubleLabel ==>
      && Innermost(r.value) == Innermost(toBeDecorated)
      && |Decorators(r.value)| == |Decorators(toBeDecorated)| + 1
  {
    match chosen
    case RemoveBrickLabel => Some(RemoveBrick(c))
    case PuckLabel => Some(Decorated(PuckSpawn, toBeDecorated))
    case AddPaddleLabel => Some(Decorated(AddPaddle, toBeDecorated))
    case ChangeCameraLabel => Some(Decorated(ChangeCamera, toBeDecorated))
    case WidenOrNarrowLabel => Some(Decorated(WidenOrNarrow, toBeDecorated))
    case DoubleLabel => None
  }

  /** Passes a possibly-null inner strategy to getStrategyAccordingString. */
  function Then(c: CollectionRef, chosen: Label, inner: Option<Strategy>): (r: Option<Strategy>)
    ensures inner.Some? && chosen != RemoveBrickLabel && chosen != DoubleLabel ==>
      && r.Some?
      && Innermost(r.value) == Innermost(inner.value)
      && |Decorators(r.value)| == |Decorators(inner.value)| + 1
  {
    if inner.None? then None else ByLabel(c, chosen, inner.value)
  }

  /** getStrategy, with the factory's game-object collection `c`. */
  function GetStrategy(c: CollectionRef, d: Draws): (r: Option<Strategy>)
    requires InRange(d)
    ensures r.Some?
    ensures Innermost(r.value) == RemoveBrick(c)
    ensures |Decorators(r.value)| <= 3
  {
    TableShape();
    var toBeDecorated := RemoveBrick(c);
    var chosen := STRATEGY_LABELS[d.first];
    if chosen != DoubleLabel then
      ByLabel(c, chosen, toBeDecorated)
    else
      var firstLabel := STRATEGY_LABELS[d.second1 + 1];
      var secondLabel := STRATEGY_LABELS[d.second2 + 1];
      if firstLabel != DoubleLabel && secondLabel != DoubleLabel then
        Then(c, secondLabel, ByLabel(c, firstLabel, toBeDecorated))
      else
        var first := STRATEGY_LABELS[d.third1 + 1];
        var second := STRATEGY_LABELS[d.third2 + 1];
        var third := STRATEGY_LABELS[d.third3 + 1];
        Then(c, third, Then(c, second, ByLabel(c, first, toBeDecorated)))
  }

  /** The decorator a non-Remove, non-Double table index selects. */
  function EffectAt(i: int): (e: Effect)
    requires 1 <= i < |STRATEGY_LABELS| - 1
    ensures IndexOf(e) == i
  {
    if i == 1 then PuckSpawn else if i == 2 then AddPaddle else if i == 3 then ChangeCamera else WidenOrNarrow
  }

  /** Index 0 holds Remove, the last index Double, and every index between a decorator's label. */
  lemma TableShape()
    ensures STRATEGY_LABELS[0] == RemoveBrickLabel
    ensures STRATEGY_LABELS[|STRATEGY_LABELS| - 1] == DoubleLabel
    ensures forall i :: 1 <= i < |STRATEGY_LABELS| - 1 ==> STRATEGY_LABELS[i] == LabelOf(EffectAt(i))
  {
  }

  /** The first draw ranges over the whole table, which lists each of the six labels exactly once. */
  lemma FirstDrawCoversEachLabelOnce()
    ensures (set i | 0 <= i < |STRATEGY_LABELS| :: STRATEGY_LABELS[i])
         == {RemoveBrickLabel, PuckLabel, AddPaddleLabel, ChangeCameraLabel, WidenOrNarrowLabel, DoubleLabel}
    ensures forall i, j :: 0 <= i < j < |STRATEGY_LABELS| ==> STRATEGY_LABELS[i] != STRATEGY_LABELS[j]
  {
    var pool := set i | 0 <= i < |STRATEGY_LABELS| :: STRATEGY_LABELS[i];
    assert STRATEGY_LABELS[0] in pool && STRATEGY_LABELS[1] in pool && STRATEGY_LABELS[2] in pool;
    assert STRATEGY_LABELS[3] in pool && STRATEGY_LABELS[4] in pool && STRATEGY_LABELS[5] in pool;
  }

  /** The two secondary draws exclude Remove and can yield every other label, Double included. */
  lemma SecondaryDrawPool()
    ensures (set i | 1 <= i < (|STRATEGY_LABELS| - 1) + 1 :: STRATEGY_LABELS[i])
         == {PuckLabel, AddPaddleLabel, ChangeCameraLabel, WidenOrNarrowLabel, DoubleLabel}
  {
    var pool := set i | 1 <= i < (|STRATEGY_LABELS| - 1) + 1 :: STRATEGY_LABELS[i];
    assert STRATEGY_LABELS[1] in pool && STRATEGY_LABELS[2] in pool && STRATEGY_LABELS[3] in pool;
    assert STRATEGY_LABELS[4] in pool && STRATEGY_LABELS[5] in pool;
  }

  /** The three escalation draws exclude both Remove and Double. */
  lemma TertiaryDrawPool()
    ensures (set i | 1 <= i < (|STRATEGY_LABELS| - 2) + 1 :: STRATEGY_LABELS[i])
         == {PuckLabel, AddPaddleLabel, ChangeCameraLabel, WidenOrNarrowLabel}
  {
    var pool := set i | 1 <= i < (|STRATEGY_LABELS| - 2) + 1 :: STRATEGY_LABELS[i];
    assert STRATEGY_LABELS[1] in pool && STRATEGY_LABELS[2] in pool;
    assert STRATEGY_LABELS[3] in pool && STRATEGY_LABELS[4] in pool;
  }

  /**
   * A first draw other than Double gives one strategy: the bare base for
   * Remove, and one decorator around the base for the four others.
   */
  lemma SingleDraw(c: CollectionRef, d: Draws)
    requires InRange(d) && STRATEGY_LABELS[d.first] != DoubleLabel
    ensures d.first == 0 ==> GetStrategy(c, d) == Some(RemoveBrick(c))
    ensures d.first != 0 ==> Decorators(GetStrategy(c, d).value) == [EffectAt(d.first)]
  {
  }

  /** After one Double with no Double among the secondary draws: second(first(base)). */
  lemma DoubleDraw(c: CollectionRef, d: Draws)
    requires InRange(d) && STRATEGY_LABELS[d.first] == DoubleLabel
    requires STRATEGY_LABELS[d.second1 + 1] != DoubleLabel && STRATEGY_LABELS[d.second2 + 1] != DoubleLabel
    ensures GetStrategy(c, d) == Some(Decorated(EffectAt(d.second2 + 1), Decorated(EffectAt(d.second1 + 1), RemoveBrick(c))))
  {
  }

  /**
   * After Double, a Double on either secondary draw discards both and makes
   * three fresh draws: third(second(first(base))), never left unresolved.
   */
  lemma EscalatedDraw(c: CollectionRef, d: Draws)
    requires InRange(d) && STRATEGY_LABELS[d.first] == DoubleLabel
    requires STRATEGY_LABELS[d.second1 + 1] == DoubleLabel || STRATEGY_LABELS[d.second2 + 1] == DoubleLabel
    ensures Decorators(GetStrategy(c, d).value)
         == [EffectAt(d.third1 + 1), EffectAt(d.third2 + 1), EffectAt(d.third3 + 1)]
  {
    TableShape();
    var e1, e2, e3 := EffectAt(d.third1 + 1), EffectAt(d.third2 + 1), EffectAt(d.third3 + 1);
    var s1 := Decorated(e1, RemoveBrick(c));
    var s2 := Decorated(e2, s1);
    assert GetStrategy(c, d) == Some(Decorated(e3, s2));
    assert Decorators(s1) == [e1];
    assert Decorators(s2) == [e1, e2];
  }

  /**
   * The factory can build exactly the chains over its own collection that
   * carry at most three decorators.
   */
  lemma FactoryImage(c: CollectionRef, s: Strategy)
    ensures (exists d :: InRange(d) && GetStrategy(c, d) == Some(s))
        <==> (Innermost(s) == RemoveBrick(c) && |Decorators(s)| <= 3)
  {
    if Innermost(s) == RemoveBrick(c) && |Decorators(s)| <= 3 {
      var d := Witness(c, s);
      assert InRange(d) && GetStrategy(c, d) == Some(s);
    }
  }

  /** Draws that make the factory build `s`. */
  function Witness(c: CollectionRef, s: Strategy): (d: Draws)
    requires Innermost(s) == RemoveBrick(c) && |Decorators(s)| <= 3
    ensures InRange(d) && GetStrategy(c, d) == Some(s)
  {
    match s
    case RemoveBrick(_) => Draws(0, 0, 0, 0, 0, 0)
    case Decorated(e1, RemoveBrick(x)) =>
      assert Innermost(s) == RemoveBrick(x);
      assert STRATEGY_LABELS[IndexOf(e1)] == LabelOf(e1) != DoubleLabel;
      Draws(IndexOf(e1), 0, 0, 0, 0, 0)
    case Decorated(e2, Decorated(e1, RemoveBrick(x))) =>
      assert Innermost(s) == Innermost(s.inner) == RemoveBrick(x);
      TableShape();
      Draws(5, IndexOf(e1) - 1, IndexOf(e2) - 1, 0, 0, 0)
    case Decorated(e3, Decorated(e2, Decorated(e1, inner))) =>
      var s1 := Decorated(e1, inner);
      var s2 := Decorated(e2, s1);
      assert Decorators(s) == Decorators(inner) + [e1] + [e2] + [e3] by {
        assert Decorators(s) == Decorators(s2) + [e3];
        assert Decorators(s2) == Decorators(s1) + [e2];
      }
      assert Innermost(s) == Innermost(inner) by {
        assert Innermost(s) == Innermost(s2) == Innermost(s1);
      }
      ExactlyOneBase(inner);
      TableShape();
      Draws(5, 4, 0, IndexOf(e1) - 1, IndexOf(e2) - 1, IndexOf(e3) - 1)
  }
}
