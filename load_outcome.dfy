/**
 * The outcome contract of `Loader.load(List, Class)`: a load either returns a
 * configuration object of the requested class, reports that the object is
 * absent (by throwing `NoSuchObjectException`), or fails with one of the
 * exceptions the contract lists. The three outcomes are an explicit datatype
 * here, and `ThrownBy` says which Java exception a caller observes for each.
 */
module LoadOutcome {

  /** A Java reference that may be null (`None`) or not (`Some`). */
  datatype Option<+T> = None | Some(value: T)

  /** A configuration path: a list of canonical configuration keys; the empty path names the root. */
  type Path = seq<string>

  /** The `configurationClass` argument of `load`: either `Loader.class` itself or some other class. */
  datatype ConfigClass = LoaderClass | Named(name: string)

  /**
   * An object `load` can hand back: a loader (a handle of type `L`), or some
   * other configuration object, identified by its class name and a payload
   * (the payload may differ between calls: values need not be determinate).
   */
  datatype Obj<L> = LoaderObj(loader: L) | ConfigObj(className: string, payload: int)

  /**
   * The ways a `load` call can fail other than by absence: the kinds its
   * contract lists (the class is not a valid configuration class, the class
   * is invalid for some other reason, an argument was null, a generic
   * configuration failure), and anything else a provider lets escape: a
   * `ServiceConfigurationError` from a lookup of its own, a
   * `ClassCastException`, or any other unchecked exception or error.
   */
  datatype FailureKind =
    | InvalidConfigurationClass
    | IllegalArgument
    | NullArgument
    | ConfigFailure
    | ServiceConfiguration
    | ClassCast
    | OtherUnchecked

  /** The three outcomes of a `load` call. There is no null value: a `Value` always carries an object. */
  datatype Outcome<+V> = Value(value: V) | Absent | Failure(kind: FailureKind)

  /**
   * The Java exceptions and errors that `load` and `bootstrap` can raise;
   * `UncheckedException` stands for every other unchecked exception or error.
   */
  datatype Thrown =
    | NoSuchObjectException
    | InvalidConfigurationClassException
    | IllegalArgumentException
    | NullPointerException
    | ConfigException
    | UncheckedException
    | ServiceConfigurationError
    | ClassCastException

  /** The exception class a failure of kind `k` is thrown as; no failure is thrown as an absence. */
  function ExceptionOf(k: FailureKind): (t: Thrown)
    ensures t != NoSuchObjectException
  {
    match k
    case InvalidConfigurationClass => InvalidConfigurationClassException
    case IllegalArgument => IllegalArgumentException
    case NullArgument => NullPointerException
    case ConfigFailure => ConfigException
    case ServiceConfiguration => ServiceConfigurationError
    case ClassCast => ClassCastException
    case OtherUnchecked => UncheckedException
  }

  /** Every exception other than `NoSuchObjectException` can escape a failing `load`. */
  lemma EveryNonAbsenceExceptionIsAFailure(t: Thrown)
    requires t != NoSuchObjectException
    ensures exists k :: ExceptionOf(k) == t
  {
    var k := match t
      case InvalidConfigurationClassException => InvalidConfigurationClass
      case IllegalArgumentException => IllegalArgument
      case NullPointerException => NullArgument
      case ConfigException => ConfigFailure
      case ServiceConfigurationError => ServiceConfiguration
      case ClassCastException => ClassCast
      case _ => OtherUnchecked;
    assert ExceptionOf(k) == t;
  }

  /**
   * What a caller of `load` observes: nothing thrown for a value,
   * `NoSuchObjectException` exactly for absence, and the failure's own
   * exception otherwise.
   */
  function ThrownBy<V>(o: Outcome<V>): (t: Option<Thrown>)
    ensures t.None? <==> o.Value?
    ensures t == Some(NoSuchObjectException) <==> o.Absent?
    ensures o.Failure? ==> t == Some(ExceptionOf(o.kind))
  {
    match o
    case Value(_) => None
    case Absent => Some(NoSuchObjectException)
    case Failure(k) => Some(ExceptionOf(k))
  }

  /** A provider's `load`, for every loader handle of type `L`: path and class may be null. */
  type LoadFn<!L> = (L, Option<Path>, Option<ConfigClass>) -> Outcome<Obj<L>>

  /**
   * The obligations the `load` contract places on implementations that can be
   * stated on outcomes: a null argument fails with a null-pointer failure, and
   * an object returned for `Loader.class` is a loader. What makes an object
   * "of" any other class is left undefined, so nothing is required there.
   * (Never returning null and idempotence hold of every `LoadFn` by
   * construction.)
   */
  ghost predicate HonorsLoadContract<L(!new)>(load: LoadFn<L>) {
    && (forall p: L, path: Option<Path>, c: Option<ConfigClass> | path.None? || c.None? ::
          load(p, path, c) == Failure(NullArgument))
    && (forall p: L, path: Path | load(p, Some(path), Some(LoaderClass)).Value? ::
          load(p, Some(path), Some(LoaderClass)).value.LoaderObj?)
  }
}
