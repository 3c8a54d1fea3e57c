/** Decorator pattern: a coffee wrapped in any chain of decorators; each decorator
    forwards cost and ingredients to the coffee it wraps, adding its own part. Costs
    are exact decimals. */
module Decorator {

  /** The decorator classes: the plain forwarding decorator and the three toppings. */
  datatype Decoration = CoffeeDecorator | Sugar | Milk | Vanilla

  /** A concrete coffee, or a decorator wrapped around another coffee. */
  datatype Coffee = ConcreteCoffee | Decorated(decoration: Decoration, inner: Coffee)

  /** `get_cost`: the base coffee costs 1.00, milk adds 0.25, vanilla 0.75; the plain
      decorator and sugar forward the wrapped cost. No coffee costs less than 1.00. */
  function Cost(c: Coffee): (r: real)
    ensures r >= 1.0
  {
    match c
    case ConcreteCoffee => 1.00
    case Decorated(CoffeeDecorator, inner) => Cost(inner)
    case Decorated(Sugar, inner) => Cost(inner)
    case Decorated(Milk, inner) => Cost(inner) + 0.25
    case Decorated(Vanilla, inner) => Cost(inner) + 0.75
  }

  /** `get_ingredients`: "coffee", then each topping's suffix. Every ingredient list
      starts with "coffee". */
  function Ingredients(c: Coffee): (r: string)
    ensures |r| >= 6 && r[..6] == "coffee"
  {
    match c
    case ConcreteCoffee => "coffee"
    case Decorated(CoffeeDecorator, inner) => Ingredients(inner)
    case Decorated(Sugar, inner) => Ingredients(inner) + ", sugar"
    case Decorated(Milk, inner) => Ingredients(inner) + ", milk"
    case Decorated(Vanilla, inner) => Ingredients(inner) + ", vanilla"
  }

  /** `get_tax`, shared by every coffee: one tenth of that coffee's own cost. */
  function Tax(c: Coffee): (r: real)
    ensures r >= 0.1
  {
    0.1 * Cost(c)
  }

  /** The decorations of a chain, innermost first (the order they were wrapped in). */
  function Decorations(c: Coffee): seq<Decoration>
  {
    match c
    case ConcreteCoffee => []
    case Decorated(d, inner) => Decorations(inner) + [d]
  }

  /** Wraps a concrete coffee in the given decorations, first one innermost. */
  function Wrap(ds: seq<Decoration>): Coffee
  {
    if ds == [] then ConcreteCoffee else Decorated(ds[|ds| - 1], Wrap(ds[..|ds| - 1]))
  }

  /** Every chain is a concrete coffee wrapped in its own decorations. */
  lemma {:induction false} WrapDecorations(c: Coffee)
    ensures Wrap(Decorations(c)) == c
  {
    match c
    case ConcreteCoffee =>
    case Decorated(d, inner) =>
      var ds := Decorations(inner) + [d];
      assert ds[..|ds| - 1] == Decorations(inner);
      WrapDecorations(inner);
  }

  /** Wrapping in a list of decorations builds a chain with exactly those decorations. */
  lemma {:induction false} DecorationsOfWrap(ds: seq<Decoration>)
    ensures Decorations(Wrap(ds)) == ds
    decreases |ds|
  {
    if ds != [] {
      DecorationsOfWrap(ds[..|ds| - 1]);
    }
  }

  /** The price a decoration adds. */
  function Surcharge(d: Decoration): real
  {
    match d
    case Milk => 0.25
    case Vanilla => 0.75
    case _ => 0.0
  }

  /** The text a decoration appends to the ingredients. */
  function Suffix(d: Decoration): string
  {
    match d
    case CoffeeDecorator => ""
    case Sugar => ", sugar"
    case Milk => ", milk"
    case Vanilla => ", vanilla"
  }

  /** The suffixes of a list of decorations, in order. */
  function Suffixes(ds: seq<Decoration>): string
  {
    if ds == [] then "" else Suffixes(ds[..|ds| - 1]) + Suffix(ds[|ds| - 1])
  }

  /** The cost of any chain: 1.00 plus 0.25 per milk and 0.75 per vanilla in it. */
  lemma {:induction false} CostFormula(c: Coffee)
    ensures Cost(c) == 1.0 + 0.25 * (multiset(Decorations(c))[Milk] as real)
                           + 0.75 * (multiset(Decorations(c))[Vanilla] as real)
  {
    match c
    case ConcreteCoffee =>
    case Decorated(d, inner) =>
      CostFormula(inner);
      assert multiset(Decorations(c)) == multiset(Decorations(inner)) + multiset{d};
  }

  /** The ingredients of any chain: "coffee" followed by the suffixes of its
      decorations in wrapping order, innermost first. */
  lemma {:induction false} IngredientsFormula(c: Coffee)
    ensures Ingredients(c) == "coffee" + Suffixes(Decorations(c))
  {
    match c
    case ConcreteCoffee =>
    case Decorated(d, inner) =>
      IngredientsFormula(inner);
      var ds := Decorations(c);
      assert ds[..|ds| - 1] == Decorations(inner) && ds[|ds| - 1] == d;
      assert Suffixes(ds) == Suffixes(Decorations(inner)) + Suffix(d);
      assert Ingredients(c) == Ingredients(inner) + Suffix(d);
  }

  /** The tax of any chain, from its decorations: 0.10 plus 0.025 per milk and 0.075
      per vanilla. */
  lemma TaxFormula(c: Coffee)
    ensures Tax(c) == 0.1 + 0.025 * (multiset(Decorations(c))[Milk] as real)
                          + 0.075 * (multiset(Decorations(c))[Vanilla] as real)
  {
  }

  /** One more decorator raises the cost by its surcharge, so wrapping never lowers
      the cost, and it appends its suffix to the ingredients. */
  lemma WrappingAddsItsPart(d: Decoration, c: Coffee)
    ensures Cost(Decorated(d, c)) == Cost(c) + Surcharge(d) >= Cost(c)
    ensures Ingredients(Decorated(d, c)) == Ingredients(c) + Suffix(d)
    ensures Tax(Decorated(d, c)) == Tax(c) + 0.1 * Surcharge(d)
  {
  }

  /** The demo script: coffee, then milk, then vanilla, then sugar. */
  lemma DemoChain()
    ensures var c0 := ConcreteCoffee;
            var c1 := Decorated(Milk, c0);
            var c2 := Decorated(Vanilla, c1);
            var c3 := Decorated(Sugar, c2);
            && [Ingredients(c0), Ingredients(c1), Ingredients(c2), Ingredients(c3)]
               == ["coffee", "coffee, milk", "coffee, milk, vanilla", "coffee, milk, vanilla, sugar"]
            && [Cost(c0), Cost(c1), Cost(c2), Cost(c3)] == [1.0, 1.25, 2.0, 2.0]
            && [Tax(c0), Tax(c1), Tax(c2), Tax(c3)] == [0.1, 0.125, 0.2, 0.2]
  {
    assert "coffee" + ", milk" == "coffee, milk";
    assert "coffee, milk" + ", vanilla" == "coffee, milk, vanilla";
    assert "coffee, milk, vanilla" + ", sugar" == "coffee, milk, vanilla, sugar";
  }
}
