/** What both variants of `sandbox.instrumentation.Transformer` share: the class-file types,
    the rewrite step `instrument`, and the registration set `transformMe`, the process-wide,
    add-only set of classes that must be rewritten. */
module Instrumentation {

  /** A byte of a class file. */
  newtype byte = x: int | 0 <= x < 256

  /** The identity of a loaded class (a `java.lang.Class` object); only equality matters. */
  type ClassId(==)

  datatype Option<+T> = None | Some(value: T)

  datatype Result<+R, +E> = Ok(value: R) | Err(error: E)

  /** What can be thrown out of `transform`. `Exception` and `Error` are the two families the
      rewriter's failures fall into; `NullPointerException` is the one the membership test throws. */
  datatype Throwable =
    | NullPointerException
    | Exception(name: string)
    | Error(name: string)

  /** The class-file rewriter behind `instrument`: it returns new bytes or throws. */
  type Rewriter = seq<byte> -> Result<seq<byte>, Throwable>

  /** The three ways a call of `transform` ends: `null`, a replacement byte array, or a throw. */
  datatype Outcome = NoChange | Rewritten(bytes: seq<byte>) | Failed(cause: Throwable)

  /** `instrument(origBytes, loader)`: the rewriter's bytes are returned, and whatever it
      throws is caught, logged and rethrown as it is. */
  function Instrument(instrument: Rewriter, origBytes: seq<byte>): (o: Outcome)
    ensures o != NoChange
    ensures o.Rewritten? <==> instrument(origBytes).Ok?
    ensures o.Rewritten? ==> instrument(origBytes) == Ok(o.bytes)
    ensures o.Failed? ==> instrument(origBytes) == Err(o.cause)
  {
    match instrument(origBytes)
    case Ok(bytes) => Rewritten(bytes)
    case Err(e) => Failed(e)
  }

  /** `transformMe.contains(cls)`. The set is backed by a `ConcurrentHashMap`, which refuses
      a null key: asking about an absent class (a first definition, where the class object
      does not exist yet) throws `NullPointerException`. */
  function Contains(transformMe: set<ClassId>, cls: Option<ClassId>): (r: Result<bool, Throwable>)
    ensures r.Err? <==> cls.None?
    ensures r.Err? ==> r.error == NullPointerException
    ensures r == Ok(true) <==> cls.Some? && cls.value in transformMe
    ensures r == Ok(false) <==> cls.Some? && cls.value !in transformMe
  {
    match cls
    case None => Err(NullPointerException)
    case Some(c) => Ok(c in transformMe)
  }

  /** Adding classes to the set never turns a positive answer into a negative one. */
  lemma ContainsMonotone(smaller: set<ClassId>, larger: set<ClassId>, cls: Option<ClassId>)
    requires smaller <= larger
    ensures Contains(smaller, cls) == Ok(true) ==> Contains(larger, cls) == Ok(true)
    ensures Contains(smaller, cls).Err? <==> Contains(larger, cls).Err?
  {
  }

  /** The static field `transformMe`: written by callers outside the transformer, only by
      adding classes, and read by `transform`. */
  class RegistrationSet {
    var transformMe: set<ClassId>

    /** The set starts empty. */
    constructor ()
      ensures transformMe == {}
    {
      transformMe := {};
    }

    /** `transformMe.add(c)`: `added` says whether `c` was new; nothing is ever removed. */
    method Register(c: ClassId) returns (added: bool)
      modifies this
      ensures transformMe == old(transformMe) + {c}
      ensures added <==> c !in old(transformMe)
    {
      added := c !in transformMe;
      transformMe := transformMe + {c};
    }
  }
}
