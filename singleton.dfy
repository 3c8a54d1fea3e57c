/** Singleton pattern: the class attribute `instance` goes from unset to the first
    object constructed; constructing again raises, `GetInstance` never does. */
module Singleton {
  import opened Results

  /** The message of the exception a second direct construction raises. */
  const AlreadyConstructed := "This class is a singleton!"

  /** The one instance: its `test` attribute reads "Atma" until set. */
  class Singleton {
    var test: string

    constructor ()
      ensures test == "Atma"
    {
      test := "Atma";
    }

    method SetTest(test: string)
      modifies this
      ensures this.test == test && GetTest() == test
    {
      this.test := test;
    }

    function GetTest(): string
      reads this
    {
      test
    }
  }

  /** The class object, holding the class attribute `instance` (unset at first). */
  class SingletonClass {
    var instance: Singleton?

    constructor ()
      ensures instance == null
    {
      instance := null;
    }

    /** Direct construction: the first one records the new object as the instance;
        any later one raises and leaves the instance as it was. */
    method Construct() returns (r: Result<Singleton, string>)
      modifies this
      ensures old(instance) != null ==> r == Failure(AlreadyConstructed) && instance == old(instance)
      ensures old(instance) == null ==> r.Success? && fresh(r.value) && instance == r.value
      ensures r.Success? ==> r.value.test == "Atma"
    {
      if instance != null {
        r := Failure(AlreadyConstructed);
      } else {
        var s := new Singleton();
        instance := s;
        r := Success(s);
      }
    }

    /** Constructs only while no instance exists, then returns the instance; it never
        raises and always returns the same object once one exists. */
    method GetInstance() returns (s: Singleton)
      modifies this
      ensures instance == s
      ensures old(instance) != null ==> s == old(instance)
      ensures old(instance) == null ==> fresh(s) && s.test == "Atma"
    {
      if instance == null {
        var _ := Construct();
      }
      s := instance;
    }
  }

  /** The demo script: construct, fetch through `GetInstance`, set `test` through the
      first reference and read it through the second, then construct again. `print`
      separates its two arguments with a space, after the first one's own trailing
      space. The third construction raises, so nothing more is printed. */
  method Demo() returns (output: seq<string>, same: bool, again: Result<Singleton, string>)
    ensures output == ["SecondInstance - variable test:  Ultima", "Trying to create another instance:"]
    ensures same
    ensures again == Failure("This class is a singleton!")
  {
    var cls := new SingletonClass();
    var first := cls.Construct();
    var second := cls.GetInstance();
    same := first.value == second;
    first.value.SetTest("Ultima");
    var secondTest := second.GetTest();
    assert secondTest == "Ultima";
    assert "SecondInstance - variable test: " + " " + "Ultima" == "SecondInstance - variable test:  Ultima";
    output := ["SecondInstance - variable test: " + " " + secondTest];
    output := output + ["Trying to create another instance:"];
    again := cls.Construct();
  }

  /** Two `GetInstance` calls on a fresh class yield one and the same object. */
  method GetInstanceTwice() returns (same: bool, test: string)
    ensures same && test == "Atma"
  {
    var cls := new SingletonClass();
    var a := cls.GetInstance();
    var b := cls.GetInstance();
    same := a == b;
    test := b.GetTest();
  }
}
