# Design patterns in Python, modelled in Dafny

This project models nine small Python programs. Each one demonstrates a classic
design pattern and ends with a short driver script whose console output is recorded
in the file:

- **Command**: an `Invoker` stores commands in order and moves an undo/redo cursor over them.
- **Observer**: a `Subject` notifies every attached observer when its state is assigned.
- **Composite**: a composite concatenates its children's outputs, one per line.
- **Singleton**: a class allows one direct construction, and `getInstance` always returns that instance.
- **Decorator**: a coffee wrapped in sugar, milk and vanilla decorators; cost, ingredients and tax.
- **Factory Method**: a factory capitalises a tag and instantiates the class of that name.
- **Abstract Factory**: two factories, each making the X, Y and Z products of one family.
- **Adapter**: a 230 V socket behind a 110 V adapter, and a kettle that decides what happens.
- **Template Method**: `go` runs prepare, cook and eat in a fixed order, and subclasses fill in the steps.

There is one Dafny module per program. `results.dfy` holds the shared `Option` and `Result` types. `sequences.dfy` holds `Distinct` and the cardinality lemma that the set-iterating loops use.

The form of each module follows the form of its program:

- **State-changing programs are classes with `modifies` clauses.** These are the Command invoker, the Observer subject and observers, the Composite's set of children and the Singleton class attribute.
  - Each loop is a method with invariants.
  - A loop over a Python `set` visits the members in an order the model leaves open. A ghost sequence records that order, and the postconditions hold for every order.
- **Programs that only compute values are datatypes, functions and lemmas.** These are Decorator, the two factories, Adapter and Template Method.
- **Console output is a returned trace.** Each `print` becomes a `seq<string>`, or a `string` for a single line. Each driver script is a `Demo` method or lemma:
  - For Command, Singleton, Factory Method, Abstract Factory, Adapter and Template Method, its contract is the printed lines.
  - For Observer and Composite, it is the printed lines up to the order of a set. The Composite script prints a text that already ends in a newline, and `print` adds one more, so its output ends with an empty line. The model includes that line.
  - For Decorator, it is the printed values (ingredients, cost, tax). Turning floats into text is not modelled.

The Singleton script prints `"SecondInstance - variable test: "` and the value as two arguments of one `print`. The first argument ends in a space, and `print` adds another, so the code writes two spaces before "Ultima". The output recorded in the file shows one. It also shows an empty line between the two printed lines (Singleton.py:49), which no `print` in the code writes. In both cases the model follows the code: two lines, with two spaces before "Ultima".

The undo/redo boundary behaviour of the invoker is kept exactly as written:

- At the last command, `redo` re-executes that command instead of refusing.
- At the first command, `undo` does the same.
- On an empty invoker, `redo` first moves the cursor past the end and then raises `IndexError`.

This behaviour may be unintended, but the model follows the code, not a guess at the intent.

## Model

| member | source | states |
|---|---|---|
| Command.ActionIdentifiesReceiver | Behavioral-Patterns/Command/Command.py:69-98 | a command's `execute` runs its receiver's action; two receivers print the same action line exactly when they are the same receiver |
| Command.ExecuteAt | Behavioral-Patterns/Command/Command.py:35-46 | indexing the command list executes the command at that index exactly when the index is in range, and raises IndexError otherwise |
| Command.CursorStaysInRange | Behavioral-Patterns/Command/Command.py:35-46 | of the cursor moves RedoCursor and UndoCursor: with a non-empty list and the cursor in range, redo and undo keep it in range; redo stays put exactly on the last command and undo exactly on the first |
| Command.EmptyInvokerRaises | Behavioral-Patterns/Command/Command.py:35-46 | on an empty invoker, redo moves the cursor one past where it was and raises; undo from 0 raises |
| Command.UndoRedoInverse | Behavioral-Patterns/Command/Command.py:35-46 | away from the ends, undo takes back a redo and redo takes back an undo |
| Command.ReplayNeverRaises | Behavioral-Patterns/Command/Command.py:35-46 | of Replay, a series of cursor moves: from a cursor in range, every series of redos and undos executes one command per move, never raises, and ends in range |
| Command.Play | Behavioral-Patterns/Command/Command.py:35-46 | calling redo and undo on an invoker for a series of moves yields exactly the executions and final cursor of Replay, and leaves the commands alone |
| Command.Invoker.constructor | Behavioral-Patterns/Command/Command.py:25-27 | a new invoker has no commands and its cursor at 0 |
| Command.Invoker.StoreCommand | Behavioral-Patterns/Command/Command.py:29-30 | appends the command at the end and leaves the cursor alone |
| Command.Invoker.ExecuteCommands | Behavioral-Patterns/Command/Command.py:32-34 | executes every stored command once, in insertion order, whatever the cursor |
| Command.Invoker.Redo | Behavioral-Patterns/Command/Command.py:35-40 | moves the cursor as RedoCursor says (forward unless it is on the last command), then executes the command under it; keeps an in-range cursor in range and then never raises |
| Command.Invoker.Undo | Behavioral-Patterns/Command/Command.py:41-46 | moves the cursor as UndoCursor says (back unless it is at 0), then executes the command under it; keeps an in-range cursor in range and then never raises |
| Command.Demo | Behavioral-Patterns/Command/Command.py:101-121 | the driver prints the ten recorded lines |
| Observer.Observer.constructor | Behavioral-Patterns/Observer/Observer.py:58-60 | a new observer has no subject and no state |
| Observer.UpdateLineIdentifiesKind | Behavioral-Patterns/Observer/Observer.py:74-87 | the two observer classes print the same line exactly when they are the same class |
| Observer.Observer.Update | Behavioral-Patterns/Observer/Observer.py:74-87 | stores the notified state and prints the observer class's line |
| Observer.Subject.constructor | Behavioral-Patterns/Observer/Observer.py:26-28 | a new subject has no observers and no state |
| Observer.Subject.Attach | Behavioral-Patterns/Observer/Observer.py:30-32 | points the observer at this subject and adds it to the set, so attaching twice leaves one membership |
| Observer.Subject.Detach | Behavioral-Patterns/Observer/Observer.py:34-36 | clears the observer's subject and removes it from the set; an absent observer is not an error |
| Observer.Subject.Notify | Behavioral-Patterns/Observer/Observer.py:38-40 | updates each attached observer exactly once with the subject's state, and prints one line per observer |
| Observer.Subject.SetSubjectState | Behavioral-Patterns/Observer/Observer.py:42-49 | stores the new state, which the getter then returns; then every attached observer holds it, notified exactly once each |
| Observer.Demo | Behavioral-Patterns/Observer/Observer.py:90-96 | the two observers each print their line exactly once, and both end up holding 123 |
| Composite.LeafOperation | Structural-Patterns/Composite/Composite.py:67-86 | every leaf text is one line of the form "Leaf _ - Operation" |
| Composite.Leaf.Operation | Structural-Patterns/Composite/Composite.py:67-86 | a leaf's operation returns one 18-character line, with no newline, starting "Leaf " |
| Composite.Join | Structural-Patterns/Composite/Composite.py:48-52 | the accumulated text is empty exactly when there are no children, and otherwise ends in a newline |
| Composite.JoinAppend | Structural-Patterns/Composite/Composite.py:50-51 | one more child appends its text and a newline at the end |
| Composite.JoinLength | Structural-Patterns/Composite/Composite.py:48-52 | the output is as long as all child texts together plus one newline per child |
| Composite.LinesOfJoin | Structural-Patterns/Composite/Composite.py:48-52 | when no child text has a newline, splitting the output into lines gives back exactly the child texts |
| Composite.LinesOfJoinThen | Structural-Patterns/Composite/Composite.py:48-52 | text written after the output is read back as lines after the child texts, which are unchanged |
| Composite.LinesOfPrinted | Structural-Patterns/Composite/Composite.py:48-52 | printing the output adds a newline, which reads back as the child texts followed by one empty line |
| Composite.LinesCons | Structural-Patterns/Composite/Composite.py:51 | a child text without a newline, followed by the newline appended after it, is read back as one line |
| Composite.Composite.constructor | Structural-Patterns/Composite/Composite.py:45-46 | a new composite has no children |
| Composite.Composite.Add | Structural-Patterns/Composite/Composite.py:54-55 | adds the child to the set |
| Composite.Composite.Remove | Structural-Patterns/Composite/Composite.py:57-58 | removes the child from the set; an absent child is not an error |
| Composite.Composite.Operation | Structural-Patterns/Composite/Composite.py:48-52 | visits each child exactly once; its lines are the children's texts in visiting order, and an empty composite gives "" |
| Composite.Demo | Structural-Patterns/Composite/Composite.py:88-96 | the driver prints four lines: one per leaf, in some order, then the empty line that `print` adds after the text's own final newline |
| Singleton.Singleton.constructor | Creational-Patterns/Singleton/Singleton.py:18-20 | a new instance reads test as "Atma" |
| Singleton.Singleton.SetTest | Creational-Patterns/Singleton/Singleton.py:33-36 | sets the instance's test attribute, which getTest then returns |
| Singleton.SingletonClass.constructor | Creational-Patterns/Singleton/Singleton.py:18-19 | at first no instance exists |
| Singleton.SingletonClass.Construct | Creational-Patterns/Singleton/Singleton.py:27-32 | the first construction records the new object as the instance; any later one raises "This class is a singleton!" and changes nothing |
| Singleton.SingletonClass.GetInstance | Creational-Patterns/Singleton/Singleton.py:21-26 | never raises; constructs only when no instance exists, and otherwise returns the existing instance |
| Singleton.Demo | Creational-Patterns/Singleton/Singleton.py:38-45 | both references are one object, so the second reads "Ultima"; the script prints its two lines, and the third construction raises |
| Singleton.GetInstanceTwice | Creational-Patterns/Singleton/Singleton.py:21-26 | two getInstance calls on a fresh class return one and the same object |
| Decorator.Cost | Structural-Patterns/Decorator/Decorator.py:34-82 | no coffee, however decorated, costs less than 1.00 |
| Decorator.Ingredients | Structural-Patterns/Decorator/Decorator.py:39-85 | every ingredient list starts with "coffee" |
| Decorator.Tax | Structural-Patterns/Decorator/Decorator.py:31-32 | every coffee's tax is at least 0.10 (its exact value is TaxFormula) |
| Decorator.WrapDecorations | Structural-Patterns/Decorator/Decorator.py:42-85 | every decorated coffee is the concrete coffee wrapped in its own list of decorations |
| Decorator.DecorationsOfWrap | Structural-Patterns/Decorator/Decorator.py:42-85 | wrapping in a list of decorations builds a chain with exactly those decorations |
| Decorator.CostFormula | Structural-Patterns/Decorator/Decorator.py:36-82 | cost = 1.00 + 0.25 per milk + 0.75 per vanilla; sugar and the plain decorator add nothing |
| Decorator.IngredientsFormula | Structural-Patterns/Decorator/Decorator.py:39-85 | ingredients = "coffee" followed by each decoration's suffix, innermost first |
| Decorator.TaxFormula | Structural-Patterns/Decorator/Decorator.py:31-32 | tax = 0.10 + 0.025 per milk + 0.075 per vanilla |
| Decorator.WrappingAddsItsPart | Structural-Patterns/Decorator/Decorator.py:45-85 | one more decorator adds its surcharge to the cost (never lowering it), its suffix to the ingredients, and a tenth of its surcharge to the tax |
| Decorator.DemoChain | Structural-Patterns/Decorator/Decorator.py:87-102 | the driver's four coffees have the recorded ingredients, costs and taxes |
| FactoryMethod.StartComponent | Creational-Patterns/Factory-Method/FactoryMethod.py:17-29 | the base product's construct is empty and every component's is not |
| FactoryMethod.Capitalize | Creational-Patterns/Factory-Method/FactoryMethod.py:33 | keeps the length; the first character is upper-cased and the rest lower-cased |
| FactoryMethod.CreateComponent | Creational-Patterns/Factory-Method/FactoryMethod.py:32-34 | succeeds exactly when the capitalised tag names a product class, with that class; otherwise fails with KeyError naming the capitalised tag |
| FactoryMethod.CaseOfCase | Creational-Patterns/Factory-Method/FactoryMethod.py:33 | upper- and lower-casing a character do not depend on its original case |
| FactoryMethod.CapitalizeIgnoresCase | Creational-Patterns/Factory-Method/FactoryMethod.py:32-34 | tags equal up to case create the same product or fail alike |
| FactoryMethod.CapitalizeIdempotent | Creational-Patterns/Factory-Method/FactoryMethod.py:33 | capitalising twice is capitalising once |
| FactoryMethod.ProductClassesReachable | Creational-Patterns/Factory-Method/FactoryMethod.py:17-34 | every product class name is its own capitalisation, so each class is created from its own name |
| FactoryMethod.FactoryUnreachable | Creational-Patterns/Factory-Method/FactoryMethod.py:31-34 | no tag capitalises to "Product1Factory", so the factory class cannot be reached through the lookup |
| FactoryMethod.ComponentTags | Creational-Patterns/Factory-Method/FactoryMethod.py:22-34 | the three component tags create the three components |
| FactoryMethod.OtherCaseTags | Creational-Patterns/Factory-Method/FactoryMethod.py:33-34 | "component2" and "COMPONENT2" both create Component2 |
| FactoryMethod.BaseProductTag | Creational-Patterns/Factory-Method/FactoryMethod.py:17-34 | "product1" creates the base product class |
| FactoryMethod.UnknownTagFails | Creational-Patterns/Factory-Method/FactoryMethod.py:34 | an unknown tag, and the factory's own name, fail with KeyError |
| FactoryMethod.DemoOutput | Creational-Patterns/Factory-Method/FactoryMethod.py:36-39 | the driver prints "Atma", "Ultima", "Emerald" |
| AbstractFactory.GetX | Creational-Patterns/Abstract-Factory/AbstractFactory.py:56-75 | returns a product exactly from a concrete factory, and that product's component is "X" |
| AbstractFactory.GetY | Creational-Patterns/Abstract-Factory/AbstractFactory.py:56-75 | returns a product exactly from a concrete factory, and that product's component is "Y" |
| AbstractFactory.GetZ | Creational-Patterns/Abstract-Factory/AbstractFactory.py:56-75 | returns a product exactly from a concrete factory, and that product's component is "Z" |
| AbstractFactory.FamilyConsistency | Creational-Patterns/Abstract-Factory/AbstractFactory.py:21-75 | a concrete factory returns, for every slot, a product of its own family with the slot's component; the base factory returns nothing |
| AbstractFactory.NoMixedFamilies | Creational-Patterns/Abstract-Factory/AbstractFactory.py:61-75 | two products share their origin exactly when the same concrete factory made them |
| AbstractFactory.ReportForm | Creational-Patterns/Abstract-Factory/AbstractFactory.py:90 | printing the four arguments gives the component and origin with two spaces before "from" |
| AbstractFactory.SectionLines | Creational-Patterns/Abstract-Factory/AbstractFactory.py:89-97 | a factory's section is the header, then its X, Y and Z lines, all naming the factory's family |
| AbstractFactory.DemoAtmaLines | Creational-Patterns/Abstract-Factory/AbstractFactory.py:78-92 | the Atma section is the four recorded lines |
| AbstractFactory.DemoUltimaLines | Creational-Patterns/Abstract-Factory/AbstractFactory.py:79-97 | the Ultima section is the four recorded lines |
| AbstractFactory.DemoOutputLines | Creational-Patterns/Abstract-Factory/AbstractFactory.py:77-97 | the driver prints the eight recorded lines |
| Adapter.Voltage | Structural-Patterns/Adapter/Adapter.py:15-49 | 230 V exactly from the socket, 110 V exactly from an adapter whatever it wraps, nothing from a bare interface |
| Adapter.Live | Structural-Patterns/Adapter/Adapter.py:27-52 | the live pin is 1 or missing, whatever the stack of adapters (where it comes from is PinsOfRoot) |
| Adapter.Neutral | Structural-Patterns/Adapter/Adapter.py:30-55 | the neutral pin is -1 or missing, whatever the stack of adapters (where it comes from is PinsOfRoot) |
| Adapter.Earth | Structural-Patterns/Adapter/Adapter.py:15-55 | the socket's earth is 0; the US interface, and so the adapter, has no earth method |
| Adapter.Boil | Structural-Patterns/Adapter/Adapter.py:64-70 | fire exactly when the voltage exceeds 110 (tested first); coffee exactly when it does not and live is 1 and neutral is -1; "No power." in every other case; no voltage raises |
| Adapter.PinsOfRoot | Structural-Patterns/Adapter/Adapter.py:51-55 | through any stack of adapters, live and neutral are those of the source at the bottom |
| Adapter.BoilByRoot | Structural-Patterns/Adapter/Adapter.py:23-70 | the kettle's outcome for every source: fire on the socket, coffee through adapters over the socket, no power through adapters over an interface |
| Adapter.AdapterProtectsKettle | Structural-Patterns/Adapter/Adapter.py:43-70 | behind an adapter the kettle never catches fire, and makes coffee exactly when a socket is at the bottom |
| Adapter.DemoBoil | Structural-Patterns/Adapter/Adapter.py:72-79 | the kettle on an adapter over a socket makes coffee; straight on the socket it catches fire |
| TemplateMethod.StepOutput | Behavioral-Patterns/Template-Method/Template_Method.py:22-51 | a step prints at most one line, and nothing exactly for the base meal |
| TemplateMethod.Go | Behavioral-Patterns/Template-Method/Template_Method.py:28-31 | go prints three lines for a concrete meal and none for the base meal (their order and text are GoFollowsSkeleton) |
| TemplateMethod.StepOutputForm | Behavioral-Patterns/Template-Method/Template_Method.py:22-51 | the base class's steps print nothing; each concrete step prints one line, the step name then the dish |
| TemplateMethod.GoRunsSkeleton | Behavioral-Patterns/Template-Method/Template_Method.py:28-31 | go runs prepare, cook and eat once each, in that order |
| TemplateMethod.GoFollowsSkeleton | Behavioral-Patterns/Template-Method/Template_Method.py:28-51 | for a concrete meal, go prints three lines, the i-th naming the i-th step and the dish |
| TemplateMethod.BaseMealSilent | Behavioral-Patterns/Template-Method/Template_Method.py:24-31 | go on the base meal prints nothing |
| TemplateMethod.GoIdentifiesMeal | Behavioral-Patterns/Template-Method/Template_Method.py:22-51 | two meals print the same trace exactly when they are the same meal |
| TemplateMethod.Repeat | Behavioral-Patterns/Template-Method/Template_Method.py:56 | n copies of a string have n times its length (none for n ≤ 0), and are made only of its characters |
| TemplateMethod.SeparatorShape | Behavioral-Patterns/Template-Method/Template_Method.py:56 | the separator is exactly 25 plus signs |
| TemplateMethod.ScriptOutputLines | Behavioral-Patterns/Template-Method/Template_Method.py:53-59 | the script prints the seven recorded lines |

## Left out

- Strategy.py and Bridge.py are not part of this model.
  - The point of Strategy is rebinding methods at run time with `types.MethodType`.
  - Bridge only forwards calls.
- Abstract base classes (`abc.ABCMeta`, `six.add_metaclass`) are not modelled. The classes are closed datatypes or fixed classes, so Python's refusal to instantiate an abstract class never comes up.
- Decorator.Cost: costs are exact decimals (`real`), not binary floats, and `str()` formatting of floats is not modelled. The recorded demo values are the exact ones.
- Decorator.Cost: the base `Abstract_Coffee` is not modelled as a coffee. Its `get_cost` returns `None`, so its `get_tax` would raise.
- The order in which Python iterates a `set` is not modelled. Composite.Composite.Operation and Observer.Subject.Notify hold for every visiting order. The order the demos happened to record is one of those orders.
- Composite.Composite.Operation: children are leaves only. A composite nested inside another composite is not modelled, because that needs a footprint for a shared mutable tree.
- FactoryMethod.Capitalize: ASCII letters only. Unicode case mapping, and the special cases of `str.capitalize` such as title-case characters, are not modelled.
- FactoryMethod.CreateComponent: looks up the product classes only. Other module globals are not modelled.
  - An unknown name fails with KeyError.
  - A global that is not a class would raise a different error when called.
  - The factory class itself cannot be reached (FactoryMethod.FactoryUnreachable).
- Singleton.Singleton.constructor: Python's class attribute `test = "Atma"` is modelled as each instance's initial value of `test`. Reading the attribute before `setTest` gives the same result either way.
- Singleton.SingletonClass: the class attribute `instance` is a field of one class object, because Dafny has no mutable static fields.
- Console I/O is modelled as returned traces. Printing happens nowhere.
- Process exit codes are not modelled. Nothing is concurrent, and no concurrency is modelled.
