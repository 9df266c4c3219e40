/**
 * The parts of Python's object model that the tracing proxies rely on:
 * probing optional attributes (`hasattr` / `getattr` with a default),
 * the truth value of an attribute holding an object, exceptions (by their
 * type name and `str()`), the outcome of a call into foreign code, and
 * `round(x, 3)`.
 */
module PyObjects {

  datatype Option<T> = None | Some(value: T)

  /**
   * What `hasattr(obj, name)` / `getattr(obj, name, default)` find: the
   * attribute is missing, or it is there with some value (possibly `None`).
   */
  datatype Attr<T> = Absent | Present(value: T) {
    /** `getattr(obj, name, default)`. */
    function Or(default: T): T {
      match this
      case Absent => default
      case Present(v) => v
    }
  }

  /**
   * The value of an attribute that holds an object whose own attributes are
   * read only when it is truthy (`if obj.usage: ... obj.usage.x ...`).
   * `FalsyObject` stands for `None` and for any other value whose truth
   * value is false.
   */
  datatype ObjectValue<T> = FalsyObject | TruthyObject(obj: T)

  /** `hasattr(owner, name) and owner.name`: the attribute is present and truthy. */
  predicate PresentAndTruthy<T>(a: Attr<ObjectValue<T>>) {
    a.Present? && a.value.TruthyObject?
  }

  /**
   * A raised exception, known by `type(e).__name__` and `str(e)`.
   * `isException` holds when its class derives from `Exception`, so that
   * `except Exception` catches it; `KeyboardInterrupt`, `SystemExit` and
   * other direct subclasses of `BaseException` have it false.
   */
  datatype Exception = Exception(typeName: string, message: string, isException: bool)

  /** The `AttributeError` Python raises when `owner.attr` does not exist. */
  function MissingAttribute(owner: string, attr: string): Exception {
    Exception("AttributeError", "'" + owner + "' object has no attribute '" + attr + "'", true)
  }

  /** A computation that either produced a value or raised. */
  datatype Result<T> = Ok(value: T) | Err(error: Exception)

  /** What a call into the wrapped SDK client did: returned a response or raised. */
  datatype Outcome<R> = Returned(response: R) | Raised(exception: Exception)

  /** Round to the nearest integer, ties to the even neighbour (Python's `round`). */
  function RoundHalfEven(y: real): (n: int)
    ensures -0.5 <= n as real - y <= 0.5
    ensures (n as real - y == 0.5 || y - n as real == 0.5) ==> n % 2 == 0
  {
    var f := y.Floor;
    var frac := y - f as real;
    if frac < 0.5 then f
    else if frac > 0.5 then f + 1
    else if f % 2 == 0 then f
    else f + 1
  }

  /**
   * `round(x, 3)`, on the exact value of `x`: the nearest multiple of 1/1000,
   * ties to even. The conversion of that decimal back to a binary float is
   * not modelled.
   */
  function RoundMillis(x: real): (r: real)
    ensures (r * 1000.0).Floor as real == r * 1000.0
    ensures -0.0005 <= r - x <= 0.0005
  {
    RoundHalfEven(x * 1000.0) as real / 1000.0
  }
}
