/** Small value types shared by every module of the model. */
module Common {

  datatype Option<+T> = None | Some(value: T)

  /** The Python exceptions that can escape from a modelled operation. */
  datatype PyException = KeyError | IndexError | ZeroDivisionError | ValueError | TypeError

  /** Outcome of a Python call: it either returns a value or raises. */
  datatype Reply<+T> = Returned(value: T) | Raised(exception: PyException)

  /** A Python object as far as its type and truthiness matter to the model. */
  datatype PyValue = PyNone | PyBool(b: bool) | PyInt(i: int) | PyFloat(r: real) | PyStr(s: string)

  /** Python's `bool(x)` for the values above. */
  function Truthy(v: PyValue): (b: bool)
    ensures v.PyBool? ==> b == v.b
    ensures v.PyNone? ==> !b
    ensures v.PyStr? ==> (b <==> v.s != [])
    ensures v.PyInt? ==> (b <==> v.i != 0)
    ensures v.PyFloat? ==> (b <==> v.r != 0.0)
  {
    match v
    case PyNone => false
    case PyBool(x) => x
    case PyInt(i) => i != 0
    case PyFloat(r) => r != 0.0
    case PyStr(s) => s != []
  }

  function Min(a: real, b: real): real { if b < a then b else a }
  function Max(a: real, b: real): real { if b > a then b else a }
  function MinInt(a: int, b: int): int { if b < a then b else a }
  function MaxInt(a: int, b: int): int { if b > a then b else a }
}
