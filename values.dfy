/**
 * The values the orchestration core passes between stages, the type tags it
 * compares, and the exceptions it raises.
 */
module Values {

  datatype Option<T> = None | Some(value: T)

  /** The exceptions the core raises (Python's ValueError, RuntimeError, IndexError). */
  datatype ErrorKind = ValueError | RuntimeError | IndexError

  /** A call that either returns a value or raises one of the core's exceptions. */
  datatype Result<T> = Ok(value: T) | Raise(error: ErrorKind)

  /** A Python class, compared by identity. */
  type ClassId = nat

  /**
   * An optional model class (`input_model` / `output_model`): `None` or the
   * class itself.
   */
  type ModelTag = Option<ClassId>

  /**
   * A Python object as far as the core can observe it: `None`, or an
   * instance of some class, together with whether `bool()` of it is true.
   * The payload stands for whatever the stage functions compute with.
   */
  datatype Value = NoneValue | Object(cls: ClassId, truthy: bool, payload: int)

  /** Python truthiness of a value (`if result:`). */
  predicate Truthy(v: Value) {
    v.Object? && v.truthy
  }

  /**
   * `type(v) == model`: the object's class is the model class. `type(None)`
   * is NoneType, which is never a model class, and no class equals `None`.
   */
  predicate HasModel(v: Value, model: ModelTag) {
    v.Object? && model == Some(v.cls)
  }

  /**
   * `type(a) is type(b)` for two model tags: every model class has the same
   * metaclass, so the comparison only tells "a model" from "no model".
   */
  predicate SameKind(a: ModelTag, b: ModelTag) {
    a.Some? == b.Some?
  }

  /** The stage's target function; `None` is the call with no argument. */
  type Target = Option<Value> -> Value

  /** `target` applied to every element, in order. */
  function MapTarget(target: Target, xs: seq<Value>): (r: seq<Value>)
    ensures |r| == |xs|
    ensures forall i :: 0 <= i < |xs| ==> r[i] == target(Some(xs[i]))
  {
    if xs == [] then [] else [target(Some(xs[0]))] + MapTarget(target, xs[1..])
  }

  /** Sequences without repeated elements. */
  predicate Distinct<T(==)>(s: seq<T>) {
    forall i, j :: 0 <= i < j < |s| ==> s[i] != s[j]
  }
}
