/** The evidence that an ephemeral turn reads (codex/ephemeral.go, codex/capacity.go), decoded: every
    value that the source tests by type or against a constant is a case here, and a field that is absent
    or of the wrong type is `None` or the empty string. */
module EphemeralEvidence {
  import opened Prelude

  predicate ValidId(id: string) { 0 < |id| <= 256 }

  // ---------------------------------------------------------------------------------------------
  // Turn errors

  datatype ErrorCode = ServerOverloaded | OtherCode | InternalServerError | UnlistedCode

  datatype TransportKind = HttpConnectionFailed | StreamConnectionFailed | StreamDisconnected | TooManyFailedAttempts

  datatype HttpStatus = NoStatus | StatusCode(code: int) | BadStatus

  /** `codexErrorInfo`.  Of the transport classifications the first one present counts; `sole` says that
      the object has no other key, and `shaped` that its value is an object. */
  datatype ErrorInfo =
    | NoInfo
    | Code(code: ErrorCode)
    | Transport(kind: TransportKind, shaped: bool, sole: bool, status: HttpStatus)
    | UnlistedObject
    | BadInfo

  /** `shaped` covers the types of message, additionalDetails and misalignment; `capacityMessage` says
      that the message is the one exact wrapped capacity text; `details` stands for the other fields by which
      a repeated completion is recognised. */
  datatype TurnError = TurnError(shaped: bool, capacityMessage: bool, info: ErrorInfo, details: string)

  datatype ErrorClass = InvalidError | TransientError | PermanentError

  function Graded(transient: bool): ErrorClass { if transient then TransientError else PermanentError }

  predicate CapacityFailure(code: ErrorCode, capacityMessage: bool) {
    code.ServerOverloaded? || (code.OtherCode? && capacityMessage)
  }

  function Classify(e: TurnError): ErrorClass {
    if !e.shaped then InvalidError else
    match e.info
    case NoInfo => PermanentError
    case Code(code) => Graded(CapacityFailure(code, e.capacityMessage) || code.InternalServerError?)
    case UnlistedObject => PermanentError
    case BadInfo => InvalidError
    case Transport(kind, shaped, sole, status) =>
      if !shaped || !sole then InvalidError else
      match status
      case NoStatus => Graded(!kind.TooManyFailedAttempts?)
      case StatusCode(code) => if 0 <= code <= 65535 then Graded(code in {408, 500, 502, 503, 504}) else InvalidError
      case BadStatus => InvalidError
  }

  // ---------------------------------------------------------------------------------------------
  // Items, turns and notifications

  datatype ItemPhase = Commentary | FinalAnswer | OtherPhase

  /** `isolated` says that the item asks questions or is delivered asynchronously. */
  datatype Item = Item(isolated: bool, id: string, kind: string, agentMessage: bool, phase: ItemPhase,
    text: Option<string>)

  datatype Status = InProgress | Completed | Failed | Interrupted | OtherStatus

  /** An entry of `items` that is not an object is `None`. */
  datatype Turn = Turn(id: string, status: Status, items: Option<seq<Option<Item>>>, error: Option<TurnError>)

  datatype Params =
    | NotAnObject
    | Params(thread: Option<string>, turnId: Option<string>, willRetry: Option<bool>, error: Option<TurnError>,
      item: Option<Item>, turn: Option<Turn>)

  datatype Method = ItemStarted | ItemCompleted | TurnStarted | TurnCompleted | ErrorNote | OtherMethod

  /** A decoded frame: a notification, a request by the server, or a reply to a call. */
  datatype Frame = Notification(kind: Method, params: Params) | ServerRequest | Reply

  /** A frame and the generation of the connection that it came on. */
  datatype Arrival = Arrival(generation: nat, frame: Frame)

  // ---------------------------------------------------------------------------------------------
  // What identifies a completion; its digest is taken to be as good as these fields

  datatype ItemMark = ItemMark(id: string, kind: string, phase: Option<ItemPhase>, text: Option<string>)

  datatype ErrorMark = ErrorMark(capacityMessage: bool, info: ErrorInfo, details: string)

  datatype Evidence = NoEvidence | Evidence(status: Status, error: Option<ErrorMark>, items: seq<Option<ItemMark>>)

  function MarkOf(item: Option<Item>): Option<ItemMark> {
    if item.None? then None else
    var i := item.value;
    Some(ItemMark(i.id, i.kind, if i.agentMessage then Some(i.phase) else None,
                  if i.agentMessage && !i.phase.Commentary? then i.text else None))
  }

  function ErrorMarkOf(error: Option<TurnError>): Option<ErrorMark> {
    if error.None? then None else Some(ErrorMark(error.value.capacityMessage, error.value.info, error.value.details))
  }

  function CompletionEvidence(turn: Turn): Evidence {
    var items := if turn.items.Some? then turn.items.value else [];
    Evidence(turn.status, ErrorMarkOf(turn.error), seq(|items|, i requires 0 <= i < |items| => MarkOf(items[i])))
  }
}
