/** Abstract Factory pattern: each concrete factory makes the X, Y and Z products of
    one family, so all products of one factory share their origin. */
module AbstractFactory {
  import opened Results

  /** A product: its origin (the family) and its component, as given at construction. */
  datatype Product = Product(origin: string, component: string)

  function GetOrigin(p: Product): string { p.origin }

  function StartComponent(p: Product): string { p.component }

  /** The six product subclasses, each fixing an origin and a component. */
  datatype ProductClass =
    | AtmaXProduct | AtmaYProduct | AtmaZProduct
    | UltimaXProduct | UltimaYProduct | UltimaZProduct

  /** Instantiating a product subclass. */
  function New(cls: ProductClass): Product
  {
    match cls
    case AtmaXProduct => Product("Atma", "X")
    case AtmaYProduct => Product("Atma", "Y")
    case AtmaZProduct => Product("Atma", "Z")
    case UltimaXProduct => Product("Ultima", "X")
    case UltimaYProduct => Product("Ultima", "Y")
    case UltimaZProduct => Product("Ultima", "Z")
  }

  /** The base factory, whose operations return nothing, and the two concrete ones. */
  datatype Factory = IAbstractFactory | AtmaFactory | UltimaFactory

  function GetX(f: Factory): (r: Option<Product>)
    ensures r.Some? <==> f != IAbstractFactory
    ensures r.Some? ==> r.value.component == "X"
  {
    match f
    case IAbstractFactory => None
    case AtmaFactory => Some(New(AtmaXProduct))
    case UltimaFactory => Some(New(UltimaXProduct))
  }

  function GetY(f: Factory): (r: Option<Product>)
    ensures r.Some? <==> f != IAbstractFactory
    ensures r.Some? ==> r.value.component == "Y"
  {
    match f
    case IAbstractFactory => None
    case AtmaFactory => Some(New(AtmaYProduct))
    case UltimaFactory => Some(New(UltimaYProduct))
  }

  function GetZ(f: Factory): (r: Option<Product>)
    ensures r.Some? <==> f != IAbstractFactory
    ensures r.Some? ==> r.value.component == "Z"
  {
    match f
    case IAbstractFactory => None
    case AtmaFactory => Some(New(AtmaZProduct))
    case UltimaFactory => Some(New(UltimaZProduct))
  }

  /** The three product slots every factory offers. */
  datatype Slot = X | Y | Z

  function Get(f: Factory, slot: Slot): Option<Product>
  {
    match slot
    case X => GetX(f)
    case Y => GetY(f)
    case Z => GetZ(f)
  }

  /** The family name a concrete factory stands for. */
  function Family(f: Factory): string
    requires f != IAbstractFactory
  {
    if f == AtmaFactory then "Atma" else "Ultima"
  }

  /** The component name of a slot. */
  function SlotName(slot: Slot): string
  {
    match slot
    case X => "X"
    case Y => "Y"
    case Z => "Z"
  }

  /** Family consistency: whatever slot is asked for, a concrete factory returns a
      product of its own family, and the component is the slot's, whichever factory
      is used. The base factory returns nothing. */
  lemma FamilyConsistency(f: Factory, slot: Slot)
    ensures f == IAbstractFactory ==> Get(f, slot) == None
    ensures f != IAbstractFactory ==>
      && Get(f, slot).Some?
      && GetOrigin(Get(f, slot).value) == Family(f)
      && StartComponent(Get(f, slot).value) == SlotName(slot)
  {
  }

  /** Two products of the same concrete factory share their origin, and products of
      different concrete factories never do. */
  lemma NoMixedFamilies(f: Factory, g: Factory, s: Slot, t: Slot)
    requires f != IAbstractFactory && g != IAbstractFactory
    ensures GetOrigin(Get(f, s).value) == GetOrigin(Get(g, t).value) <==> f == g
  {
  }

  /** The line the demo prints for one product: `print` with four arguments, which
      writes them separated by single spaces. */
  function Report(p: Product): string
  {
    "Start component" + " " + StartComponent(p) + " " + " from origin" + " " + GetOrigin(p)
  }

  /** The part of the demo's output for one factory: a header, then its X, Y and Z products. */
  function Section(header: string, f: Factory): seq<string>
    requires f != IAbstractFactory
  {
    [header, Report(GetX(f).value), Report(GetY(f).value), Report(GetZ(f).value)]
  }

  /** The demo script's output. */
  function DemoOutput(): seq<string>
  {
    Section("--- Product 1 ---", AtmaFactory) + Section("--- Product 2 ---", UltimaFactory)
  }

  /** The line printed for a product: its component, then two spaces (the separator
      and the leading space of the third argument), then its origin. */
  lemma ReportForm(p: Product)
    ensures Report(p) == "Start component " + p.component + "  from origin " + p.origin
  {
  }

  /** The part of the output for one concrete factory: the header, then the X, Y and Z
      lines, all of the factory's own family. */
  lemma SectionLines(header: string, f: Factory)
    requires f != IAbstractFactory
    ensures Section(header, f) == [
      header,
      "Start component X  from origin " + Family(f),
      "Start component Y  from origin " + Family(f),
      "Start component Z  from origin " + Family(f)]
  {
    FamilyConsistency(f, X);
    FamilyConsistency(f, Y);
    FamilyConsistency(f, Z);
    ReportForm(GetX(f).value);
    ReportForm(GetY(f).value);
    ReportForm(GetZ(f).value);
    assert "Start component " + "X" + "  from origin " == "Start component X  from origin ";
    assert "Start component " + "Y" + "  from origin " == "Start component Y  from origin ";
    assert "Start component " + "Z" + "  from origin " == "Start component Z  from origin ";
  }

  /** The demo prints the Atma factory's three (component, origin) pairs in the
      recorded form. */
  lemma DemoAtmaLines()
    ensures Section("--- Product 1 ---", AtmaFactory) == [
      "--- Product 1 ---",
      "Start component X  from origin Atma",
      "Start component Y  from origin Atma",
      "Start component Z  from origin Atma"]
  {
    SectionLines("--- Product 1 ---", AtmaFactory);
    assert "Start component X  from origin " + "Atma" == "Start component X  from origin Atma";
    assert "Start component Y  from origin " + "Atma" == "Start component Y  from origin Atma";
    assert "Start component Z  from origin " + "Atma" == "Start component Z  from origin Atma";
  }

  /** The demo prints the Ultima factory's three (component, origin) pairs in the
      recorded form. */
  lemma DemoUltimaLines()
    ensures Section("--- Product 2 ---", UltimaFactory) == [
      "--- Product 2 ---",
      "Start component X  from origin Ultima",
      "Start component Y  from origin Ultima",
      "Start component Z  from origin Ultima"]
  {
    SectionLines("--- Product 2 ---", UltimaFactory);
    assert "Start component X  from origin " + "Ultima" == "Start component X  from origin Ultima";
    assert "Start component Y  from origin " + "Ultima" == "Start component Y  from origin Ultima";
    assert "Start component Z  from origin " + "Ultima" == "Start component Z  from origin Ultima";
  }

  /** The whole demo output: the Atma section, then the Ultima section. */
  lemma DemoOutputLines()
    ensures DemoOutput() == [
      "--- Product 1 ---",
      "Start component X  from origin Atma",
      "Start component Y  from origin Atma",
      "Start component Z  from origin Atma",
      "--- Product 2 ---",
      "Start component X  from origin Ultima",
      "Start component Y  from origin Ultima",
      "Start component Z  from origin Ultima"]
  {
    DemoAtmaLines();
    DemoUltimaLines();
  }
}
