/** Template Method pattern: the base meal's `go` fixes the order of the three steps;
    each subclass overrides the steps to print its own lines. */
module TemplateMethod {

  /** The base meal, whose steps do nothing, and its two subclasses. */
  datatype Meal = MakeMeal | MakePizza | MakeTea

  /** The three overridable steps. */
  datatype Step = Prepare | Cook | Eat

  /** The order `go` calls the steps in. */
  const Skeleton: seq<Step> := [Prepare, Cook, Eat]

  function StepName(step: Step): string
  {
    match step
    case Prepare => "Prepare"
    case Cook => "Cook"
    case Eat => "Eat"
  }

  /** The dish a concrete meal prints after each step name. */
  function Dish(m: Meal): string
    requires m != MakeMeal
  {
    if m == MakePizza then "Pizza" else "Tea"
  }

  /** The lines one step of a meal prints: none for the base class, one otherwise. */
  function StepOutput(m: Meal, step: Step): (lines: seq<string>)
    ensures |lines| <= 1
    ensures m == MakeMeal <==> lines == []
  {
    match (m, step)
    case (MakeMeal, _) => []
    case (MakePizza, Prepare) => ["Prepare Pizza"]
    case (MakePizza, Cook) => ["Cook Pizza"]
    case (MakePizza, Eat) => ["Eat Pizza"]
    case (MakeTea, Prepare) => ["Prepare Tea"]
    case (MakeTea, Cook) => ["Cook Tea"]
    case (MakeTea, Eat) => ["Eat Tea"]
  }

  /** The base class's steps print nothing; a concrete meal's step prints one line,
      the step's name and then the dish. */
  lemma StepOutputForm(m: Meal, step: Step)
    ensures m == MakeMeal <==> StepOutput(m, step) == []
    ensures m != MakeMeal ==> StepOutput(m, step) == [StepName(step) + " " + Dish(m)]
  {
    if m != MakeMeal {
      var line := StepName(step) + " " + Dish(m);
      match (m, step)
      case (MakePizza, Prepare) => assert line == "Prepare Pizza";
      case (MakePizza, Cook) => assert line == "Cook Pizza";
      case (MakePizza, Eat) => assert line == "Eat Pizza";
      case (MakeTea, Prepare) => assert line == "Prepare Tea";
      case (MakeTea, Cook) => assert line == "Cook Tea";
      case (MakeTea, Eat) => assert line == "Eat Tea";
    }
  }

  /** `go`: prepare, then cook, then eat. */
  function Go(m: Meal): (lines: seq<string>)
    ensures |lines| == (if m == MakeMeal then 0 else 3)
  {
    StepOutput(m, Prepare) + StepOutput(m, Cook) + StepOutput(m, Eat)
  }

  /** The lines of running the given steps in order. */
  function Run(m: Meal, steps: seq<Step>): seq<string>
  {
    if steps == [] then [] else StepOutput(m, steps[0]) + Run(m, steps[1..])
  }

  /** `go` runs the skeleton: every step exactly once, in the fixed order. */
  lemma GoRunsSkeleton(m: Meal)
    ensures Go(m) == Run(m, Skeleton)
  {
  }

  /** For a concrete meal, `go` prints exactly three lines, the i-th naming the i-th
      step of the skeleton and the meal's dish. */
  lemma GoFollowsSkeleton(m: Meal)
    requires m != MakeMeal
    ensures |Go(m)| == |Skeleton|
    ensures forall i :: 0 <= i < |Skeleton| ==> Go(m)[i] == StepName(Skeleton[i]) + " " + Dish(m)
  {
  }

  /** The base meal's steps do nothing, so its `go` prints nothing. */
  lemma BaseMealSilent()
    ensures Go(MakeMeal) == []
  {
  }

  /** Different meals print different traces. */
  lemma GoIdentifiesMeal(m: Meal, n: Meal)
    ensures Go(m) == Go(n) <==> m == n
  {
    if m != n && m != MakeMeal && n != MakeMeal {
      assert Go(m)[2] != Go(n)[2] by {
        assert Go(m)[2][4] != Go(n)[2][4];
      }
    }
  }

  /** `n * s` on a string: `s` repeated `n` times, empty when `n` is not positive. */
  function Repeat(n: int, s: string): (r: string)
    ensures |r| == (if n <= 0 then 0 else n * |s|)
    ensures forall i :: 0 <= i < |r| ==> r[i] in s
    decreases n
  {
    if n <= 0 then "" else s + Repeat(n - 1, s)
  }

  /** The separator line: 25 plus signs. */
  function Separator(): string
  {
    Repeat(25, "+")
  }

  /** The separator is 25 characters long and made of plus signs only. */
  lemma SeparatorShape()
    ensures |Separator()| == 25 && forall i :: 0 <= i < 25 ==> Separator()[i] == '+'
  {
  }

  /** The script: the pizza run, the separator, then the tea run. */
  function ScriptOutput(): seq<string>
  {
    Go(MakePizza) + [Separator()] + Go(MakeTea)
  }

  /** The script prints the seven recorded lines. */
  lemma ScriptOutputLines()
    ensures ScriptOutput() == [
      "Prepare Pizza", "Cook Pizza", "Eat Pizza",
      "+++++++++++++++++++++++++",
      "Prepare Tea", "Cook Tea", "Eat Tea"]
  {
    SeparatorShape();
    assert Separator() == "+++++++++++++++++++++++++";
  }
}
