/** Optional values, and the outcome of a call to Amberflo as the client classifies it. */
module Results {

  datatype Option<+T> = None | Some(value: T)

  /** Why a request was rejected, as far as the client looks into the response. */
  datatype Reason =
    | BadRequest      // the client or the server refuses the arguments
    | LabelTaken      // "already exists with 'label'"
    | NameTaken       // "already exists with 'meterApiName'", or a product item name
    | SameMeter       // "have the same meter"
    | PriceNameTaken  // a price name is taken, or was changed
    | EndInPast       // "end time can't be in the past"
    | Locked          // the lockingStatus forbids the change
    | NoSuchEntity    // 404
    | Ambiguous       // the client found several records where it expects one
    | RefusedCall     // any other 4xx

  /** The "not found" sentinels, transient and permanent errors, and errors that are neither. */
  datatype Failure = NotFound | Transient | Permanent(why: Reason) | Unclassified

  datatype Result<+T> = Ok(value: T) | Err(error: Failure)

  /** What can go wrong with one request besides the server's own answer: the retries ran out,
      the context ended, or something on the way (or a garbled response) turned it into a
      permanent error. */
  datatype Glitch = Timeout | ContextEnded | Refused

  /** The fate of one logical request, client retries included.
      Repeated: an earlier attempt took effect, its response was lost, and the answer is to a retry.
      Dropped: no effect and an error. Lost: the effect happened and an error came back. */
  datatype Fault = Delivered | Repeated | Dropped(glitch: Glitch) | Lost(glitch: Glitch)

  function GlitchFailure(g: Glitch): Failure {
    match g
    case Timeout => Transient
    case ContextEnded => Unclassified
    case Refused => Permanent(RefusedCall)
  }

  predicate Answered(f: Fault) { f.Delivered? || f.Repeated? }

  predicate RefusedBy(f: Fault) { !Answered(f) && f.glitch.Refused? }

  /** A request against state st whose server-side effect and answer is `serve`. */
  function Settle<S, T>(f: Fault, st: S, serve: S -> (S, Result<T>)): (S, Result<T>) {
    match f
    case Delivered => serve(st)
    case Repeated => serve(serve(st).0)
    case Dropped(g) => (st, Err(GlitchFailure(g)))
    case Lost(g) => (serve(st).0, Err(GlitchFailure(g)))
  }
}
