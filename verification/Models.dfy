// Request, response and error types shared by every component
// (internal/models/models.go).
module Models {

  datatype Option<+T> = None | Some(value: T)

  // Machine-readable error codes, one constructor per code string.
  datatype Code =
    | InvalidRequest | InvalidURL | BlockedDestination | DNSFailure
    | RedirectBlocked | RedirectLimitExceeded | BrowserStartFailed | NavigationTimeout
    | ExtractionFailed | ScreenshotFailed | TaskTimeout | Overloaded
    | SessionNotFound | SessionExpired | FlowStepFailed

  // The rules of flow validation, one constructor per message.
  datatype FlowRule =
    | FlowMissing | UnsupportedVersion | NameLength | NoSteps | TooManySteps | DuplicateStepID
    | StepIDLength | StepTypeUnknown | LocatorMissing | LocatorStrategyUnknown | LocatorLength | LocatorNotAccepted
    | URLMissing | URLTooLong | URLNotAccepted | ValueTooLong | ValueNotAccepted | TimeoutOutOfRange

  // Message texts. Texts the model tells apart have a constructor of their own;
  // Text stands for any other message.
  datatype Message =
    | NegativeMaxTextChars | LimitReached | NoToken
    | SessionMissing | AlreadyCompleted | NoLongerWaiting | SessionTimedOut
    | ChromiumDidNotStart | ChromiumStartTimedOut | ClientCancelled | DeadlineExceeded | ServiceShuttingDown
    | NoProfileDirectory | InterceptionNotEnabled | DestinationNotValidated
    | RedirectChainTooLong | DestinationNotPermitted
    | TaskIDLength | TaskURLMissing | TaskLimitReached | RequestLimitReached
    | NoArtifactStorage | CaptureFailed | StoreFailed
    | StepTimedOut | StepExecutionFailed | AssertURLMismatch | UnsupportedStepType
    | PageExtractionFailed | NavigationTimedOut | NavigationFailed
    | Rule(rule: FlowRule)
    | Text(text: string)

  // Go's *BrowserError; nil is None.
  datatype BrowserError = BrowserError(code: Code, message: Message)

  type MaybeError = Option<BrowserError>

  // Task, session and flow-run statuses.
  datatype Status = Waiting | Completed | Failed | Cancelled

  // Opaque identifiers: only equality matters, except in module Artifacts.
  type ArtifactId = string

  // The page content of a result (final URL, title, text, links) is a foreign
  // effect and is not represented.
  datatype BrowserResult = BrowserResult(status: Status, error: MaybeError, screenshot: Option<ArtifactId>)

  function FailedResult(error: BrowserError): BrowserResult {
    BrowserResult(Failed, Some(error), None)
  }
}
