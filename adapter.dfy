/** Adapter pattern: a European socket supplies 230 V; an adapter offers the US
    interface at 110 V and forwards the live and neutral pins of whatever it wraps;
    a kettle decides from what its power source reports. */
module Adapter {
  import opened Results

  /** The power sources: the two interface base classes, whose methods only `pass`
      (so they return `None`), the European socket, and an adapter around any source. */
  datatype Power =
    | EuropeanSocketInterface
    | Socket
    | USASocketInterface
    | Adapter(socket: Power)

  /** `voltage()`: 230 from the socket, 110 from any adapter, nothing from an interface. */
  function Voltage(p: Power): (v: Option<int>)
    ensures p.Socket? <==> v == Some(230)
    ensures p.Adapter? <==> v == Some(110)
    ensures v.None? <==> p.EuropeanSocketInterface? || p.USASocketInterface?
  {
    match p
    case EuropeanSocketInterface => None
    case Socket => Some(230)
    case USASocketInterface => None
    case Adapter(_) => Some(110)
  }

  /** `live()`: 1 from the socket; an adapter forwards the wrapped source's pin. */
  function Live(p: Power): (r: Option<int>)
    ensures r == None || r == Some(1)
  {
    match p
    case EuropeanSocketInterface => None
    case Socket => Some(1)
    case USASocketInterface => None
    case Adapter(socket) => Live(socket)
  }

  /** `neutral()`: -1 from the socket; an adapter forwards the wrapped source's pin. */
  function Neutral(p: Power): (r: Option<int>)
    ensures r == None || r == Some(-1)
  {
    match p
    case EuropeanSocketInterface => None
    case Socket => Some(-1)
    case USASocketInterface => None
    case Adapter(socket) => Neutral(socket)
  }

  /** Calling a method the object's class does not define. */
  datatype PyError = AttributeError | TypeError

  /** `earth()`: 0 from the socket; the US interface, and so the adapter, has no earth
      pin at all. */
  function Earth(p: Power): (r: Result<Option<int>, PyError>)
    ensures r.Failure? <==> p.USASocketInterface? || p.Adapter?
    ensures p.Socket? ==> r == Success(Some(0))
  {
    match p
    case EuropeanSocketInterface => Success(None)
    case Socket => Success(Some(0))
    case USASocketInterface => Failure(AttributeError)
    case Adapter(_) => Failure(AttributeError)
  }

  /** `ElectricKettle.boil`: the voltage test comes first (comparing a missing voltage
      with 110 raises a TypeError), then the live and neutral pins. */
  function Boil(power: Power): (r: Result<string, PyError>)
    ensures r == Failure(TypeError) <==> Voltage(power).None?
    ensures r == Success("Kettle on fire!") <==> Voltage(power).Some? && Voltage(power).value > 110
    ensures r == Success("Coffee time!") <==>
      && Voltage(power).Some? && Voltage(power).value <= 110
      && Live(power) == Some(1) && Neutral(power) == Some(-1)
    ensures r == Success("No power.") <==>
      && Voltage(power).Some? && Voltage(power).value <= 110
      && !(Live(power) == Some(1) && Neutral(power) == Some(-1))
  {
    var voltage := Voltage(power);
    if voltage.None? then Failure(TypeError)
    else if voltage.value > 110 then Success("Kettle on fire!")
    else if Live(power) == Some(1) && Neutral(power) == Some(-1) then Success("Coffee time!")
    else Success("No power.")
  }

  /** The source at the bottom of a chain of adapters. */
  function Root(p: Power): (r: Power)
    ensures !r.Adapter?
  {
    if p.Adapter? then Root(p.socket) else p
  }

  /** However many adapters are stacked, the live and neutral pins are those of the
      source at the bottom. */
  lemma {:induction false} PinsOfRoot(p: Power)
    ensures Live(p) == Live(Root(p)) && Neutral(p) == Neutral(Root(p))
  {
    if p.Adapter? {
      PinsOfRoot(p.socket);
    }
  }

  /** The kettle's verdict for every source: directly on the socket it catches fire;
      through adapters over the socket it makes coffee; through adapters over a bare
      interface it has no power; on a bare interface the comparison fails. */
  lemma BoilByRoot(p: Power)
    ensures p.Socket? ==> Boil(p) == Success("Kettle on fire!")
    ensures p.Adapter? && Root(p).Socket? ==> Boil(p) == Success("Coffee time!")
    ensures p.Adapter? && !Root(p).Socket? ==> Boil(p) == Success("No power.")
    ensures !p.Socket? && !p.Adapter? ==> Boil(p) == Failure(TypeError)
  {
    PinsOfRoot(p);
  }

  /** An adapter always reports 110 V, whatever it wraps, so a kettle behind one never
      catches fire; and it never reports "No power." when the socket is at the bottom. */
  lemma AdapterProtectsKettle(p: Power)
    requires p.Adapter?
    ensures Voltage(p) == Some(110)
    ensures Boil(p) != Success("Kettle on fire!")
    ensures Root(p).Socket? <==> Boil(p) == Success("Coffee time!")
  {
  }

  /** The demo: a kettle on an adapter over a socket makes coffee; plugged straight
      into the socket it would catch fire. */
  lemma DemoBoil()
    ensures Boil(Adapter(Socket)) == Success("Coffee time!")
    ensures Boil(Socket) == Success("Kettle on fire!")
  {
  }
}
