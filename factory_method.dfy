/** Factory Method pattern: a factory normalises a tag with `str.capitalize` and
    instantiates the module-level class of that name. */
module FactoryMethod {
  import opened Results

  /** The product classes: the base `Product1` and its three components. */
  datatype Product = Product1 | Component1 | Component2 | Component3

  /** `startComponent` returns the class's `construct` attribute. */
  function StartComponent(p: Product): (r: string)
    ensures r == "" <==> p == Product1
  {
    match p
    case Product1 => ""
    case Component1 => "Atma"
    case Component2 => "Ultima"
    case Component3 => "Emerald"
  }

  /** The module-level product classes, by name. (The factory class itself is also a
      module-level name, but no capitalised tag can reach it: see FactoryUnreachable.) */
  const Classes: map<string, Product> := map[
    "Product1" := Product1,
    "Component1" := Component1,
    "Component2" := Component2,
    "Component3" := Component3]

  predicate IsUpper(c: char) { 'A' <= c <= 'Z' }
  predicate IsLower(c: char) { 'a' <= c <= 'z' }

  function ToUpper(c: char): (u: char)
    ensures !IsLower(u)
  {
    if IsLower(c) then (c as int - 32) as char else c
  }

  function ToLower(c: char): (l: char)
    ensures !IsUpper(l)
  {
    if IsUpper(c) then (c as int + 32) as char else c
  }

  /** Lower-cases every character. */
  function LowerAll(s: string): (r: string)
    ensures |r| == |s| && forall i :: 0 <= i < |s| ==> r[i] == ToLower(s[i])
  {
    seq(|s|, i requires 0 <= i < |s| => ToLower(s[i]))
  }

  /** `str.capitalize`: the first character upper-cased, the rest lower-cased. */
  function Capitalize(s: string): (r: string)
    ensures |r| == |s|
    ensures s != [] ==> r[0] == ToUpper(s[0]) && !IsLower(r[0])
    ensures forall i :: 1 <= i < |r| ==> r[i] == ToLower(s[i]) && !IsUpper(r[i])
  {
    if s == [] then [] else [ToUpper(s[0])] + LowerAll(s[1..])
  }

  /** The lookup in the module's globals fails with a KeyError naming the missing key. */
  datatype LookupError = KeyError(key: string)

  /** `create_component`: capitalise the tag, then instantiate the class of that name. */
  function CreateComponent(typ: string): (r: Result<Product, LookupError>)
    ensures r.Success? <==> Capitalize(typ) in Classes
    ensures r.Success? ==> r.value == Classes[Capitalize(typ)]
    ensures r.Failure? ==> r.error == KeyError(Capitalize(typ))
  {
    var targetClass := Capitalize(typ);
    if targetClass in Classes then Success(Classes[targetClass]) else Failure(KeyError(targetClass))
  }

  /** Upper- and lower-casing a character do not depend on its original case. */
  lemma CaseOfCase(c: char)
    ensures ToUpper(ToLower(c)) == ToUpper(c)
    ensures ToLower(ToUpper(c)) == ToLower(c)
  {
  }

  /** Capitalising is insensitive to case: tags that agree once lower-cased are
      capitalised alike, and so create the same product or fail alike. */
  lemma CapitalizeIgnoresCase(s: string, t: string)
    requires LowerAll(s) == LowerAll(t)
    ensures Capitalize(s) == Capitalize(t)
    ensures CreateComponent(s) == CreateComponent(t)
  {
  }

  /** Capitalising twice is capitalising once. */
  lemma CapitalizeIdempotent(s: string)
    ensures Capitalize(Capitalize(s)) == Capitalize(s)
  {
  }

  /** Only names that are their own capitalisation can be reached (CapitalizeIdempotent);
      every product class name is one, so each class is reachable by its own name. */
  lemma ProductClassesReachable()
    ensures forall name :: name in Classes ==> Capitalize(name) == name
    ensures forall name :: name in Classes ==> CreateComponent(name) == Success(Classes[name])
  {
    forall name | name in Classes
      ensures Capitalize(name) == name
    {
      assert name in {"Product1", "Component1", "Component2", "Component3"};
      assert Capitalize(name)[0] == name[0];
      assert forall i :: 1 <= i < |name| ==> Capitalize(name)[i] == name[i];
    }
  }

  /** No tag capitalises to "Product1Factory", because capitalising lower-cases its
      ninth character: the factory class cannot make itself. */
  lemma FactoryUnreachable(typ: string)
    ensures Capitalize(typ) != "Product1Factory"
  {
    if |typ| == 15 {
      assert !IsUpper(Capitalize(typ)[8]);
      assert IsUpper("Product1Factory"[8]);
    }
  }

  /** A string is the capitalisation of `s` when it agrees with `s` character by
      character, up to case, with only its first character upper-case. */
  lemma CapitalizeTo(s: string, r: string)
    requires |r| == |s| && s != []
    requires r[0] == ToUpper(s[0])
    requires forall i :: 1 <= i < |s| ==> r[i] == ToLower(s[i])
    ensures Capitalize(s) == r
  {
  }

  /** The three component tags create the components their names say. */
  lemma ComponentTags()
    ensures CreateComponent("Component1") == Success(Component1)
    ensures CreateComponent("Component2") == Success(Component2)
    ensures CreateComponent("Component3") == Success(Component3)
  {
    CapitalizeTo("Component1", "Component1");
    CapitalizeTo("Component2", "Component2");
    CapitalizeTo("Component3", "Component3");
  }

  /** A tag in another case reaches the same class: "component2" and "COMPONENT2"
      both create `Component2`. */
  lemma OtherCaseTags()
    ensures CreateComponent("component2") == Success(Component2)
    ensures CreateComponent("COMPONENT2") == Success(Component2)
  {
    CapitalizeTo("component2", "Component2");
    assert forall i :: 1 <= i < 10 ==> "Component2"[i] == ToLower("COMPONENT2"[i]);
    CapitalizeTo("COMPONENT2", "Component2");
  }

  /** The base product class is reachable too: "product1" creates `Product1`. */
  lemma BaseProductTag()
    ensures CreateComponent("product1") == Success(Product1)
  {
    CapitalizeTo("product1", "Product1");
  }

  /** A tag naming no product class fails; there is no default product. */
  lemma UnknownTagFails()
    ensures CreateComponent("Component4") == Failure(KeyError("Component4"))
    ensures CreateComponent("Product1Factory") == Failure(KeyError("Product1factory"))
  {
    CapitalizeTo("Component4", "Component4");
    CapitalizeTo("Product1Factory", "Product1factory");
  }

  /** The demo script: the three component tags print "Atma", "Ultima", "Emerald". */
  lemma DemoOutput()
    ensures forall i :: 0 <= i < 3 ==>
      var r := CreateComponent(["Component1", "Component2", "Component3"][i]);
      r.Success? && StartComponent(r.value) == ["Atma", "Ultima", "Emerald"][i]
  {
    ComponentTags();
  }
}
