/**
 * Name resolution of `Voice::__call`: a method name is looked up first as a
 * renderer (`build<Name>`), then as an API operation (`do<Name>`); anything
 * else is an invalid method.
 */
module Dispatch {

  import opened Php

  /** The renderers, one per `build<Name>` method of the class. */
  datatype Action =
    | Say | Pay | GetDigits | Dial | Record | Enqueue | Dequeue | Conference | Redirect | Reject

  /** The API operations, one per `do<Name>` method of the class. */
  datatype Operation = PlaceCall | UploadMediaFile | FetchQueuedCalls

  datatype Target = Builder(action: Action) | Api(operation: Operation) | Unknown

  /** The name after "build" of the method that renders an action. */
  function ActionName(a: Action): string {
    match a
    case Say => "Say"
    // the play renderer is declared as buildPay, so its name is "Pay"
    case Pay => "Pay"
    case GetDigits => "GetDigits"
    case Dial => "Dial"
    case Record => "Record"
    case Enqueue => "Enqueue"
    case Dequeue => "Dequeue"
    case Conference => "Conference"
    case Redirect => "Redirect"
    case Reject => "Reject"
  }

  /** The name after "do" of the method that performs an operation. */
  function OperationName(op: Operation): string {
    match op
    case PlaceCall => "Call"
    case UploadMediaFile => "UploadMediaFile"
    case FetchQueuedCalls => "fetchQueuedCalls"
  }

  /** `method_exists($this, 'build' . $name)`, as a lookup. */
  function BuilderFor(name: string): Option<Action> {
    if name == "Say" then Some(Say)
    else if name == "Pay" then Some(Pay)
    else if name == "GetDigits" then Some(GetDigits)
    else if name == "Dial" then Some(Dial)
    else if name == "Record" then Some(Record)
    else if name == "Enqueue" then Some(Enqueue)
    else if name == "Dequeue" then Some(Dequeue)
    else if name == "Conference" then Some(Conference)
    else if name == "Redirect" then Some(Redirect)
    else if name == "Reject" then Some(Reject)
    else None
  }

  /** `method_exists($this, 'do' . $name)`, as a lookup. */
  function OperationFor(name: string): Option<Operation> {
    if name == "Call" then Some(PlaceCall)
    else if name == "UploadMediaFile" then Some(UploadMediaFile)
    else if name == "fetchQueuedCalls" then Some(FetchQueuedCalls)
    else None
  }

  lemma BuilderForFinds(name: string)
    ensures BuilderFor(name).Some? ==> ActionName(BuilderFor(name).value) == name
    ensures BuilderFor(name).None? ==> forall a :: ActionName(a) != name
  {
    if BuilderFor(name).None? {
      forall a: Action ensures ActionName(a) != name {
        match a
        case Say =>
        case Pay =>
        case GetDigits =>
        case Dial =>
        case Record =>
        case Enqueue =>
        case Dequeue =>
        case Conference =>
        case Redirect =>
        case Reject =>
      }
    }
  }

  lemma OperationForFinds(name: string)
    ensures OperationFor(name).Some? ==> OperationName(OperationFor(name).value) == name
    ensures OperationFor(name).None? ==> forall op :: OperationName(op) != name
  {
    if OperationFor(name).None? {
      forall op: Operation ensures OperationName(op) != name {
        match op
        case PlaceCall =>
        case UploadMediaFile =>
        case FetchQueuedCalls =>
      }
    }
  }

  /**
   * The target `__call` routes a name to: a renderer when one has that name,
   * otherwise an operation with that name, otherwise nothing.
   */
  function Resolve(name: string): (t: Target)
    ensures t.Builder? ==> ActionName(t.action) == name
    ensures t.Api? ==> OperationName(t.operation) == name
    ensures (exists a :: ActionName(a) == name) ==> t.Builder?
    ensures t.Unknown? <==> (forall a :: ActionName(a) != name) && (forall op :: OperationName(op) != name)
  {
    BuilderForFinds(name);
    OperationForFinds(name);
    match BuilderFor(name)
    case Some(a) => Builder(a)
    case None =>
      match OperationFor(name)
      case Some(op) => Api(op)
      case None => Unknown
  }

  /** The message of the error `__call` returns for a name that resolves to nothing. */
  function InvalidMethod(name: string): string {
    name + " is an invalid Voice SDK Method"
  }

  /** Every action and every operation is reached by its own name. */
  lemma ResolveByName(a: Action, op: Operation)
    ensures Resolve(ActionName(a)) == Builder(a)
    ensures Resolve(OperationName(op)) == Api(op)
  {
    match a
    case Say =>
    case Pay =>
    case GetDigits =>
    case Dial =>
    case Record =>
    case Enqueue =>
    case Dequeue =>
    case Conference =>
    case Redirect =>
    case Reject =>
  }

  /** "Play" names no renderer (the renderer is called "Pay") and no operation. */
  lemma PlayIsUnresolved()
    ensures Resolve("Play") == Unknown
  {
  }
}
