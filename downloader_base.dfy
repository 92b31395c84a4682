/**
 The result type of one state-handler run in the download state machine
 (`StateTransition`) and the four-handler downloader interface
 (`BaseDownloader`).
 */
module DownloaderBase {
  import opened Wrappers

  /**
   Lifecycle states of a download task. The handler documentation names the
   four dispatchable states; Completed and Failed are the terminal states the
   failure flow and the post-processing handler lead to.
   */
  datatype DownloadState = Pending | Downloading | Downloaded | PostProcessing | Completed | Failed

  predicate IsTerminal(s: DownloadState) {
    s == Completed || s == Failed
  }

  /**
   The four fields of the dataclass. `delay_seconds` is a float in the source;
   no arithmetic is done on it, so it is kept as a real.
   */
  datatype StateTransition = StateTransition(
    success: bool,
    nextState: Option<DownloadState>,
    delaySeconds: real,
    errorMessage: Option<string>)

  /** The dataclass constructor: only `success` is mandatory, the rest take their declared defaults. */
  function Make(success: bool, nextState: Option<DownloadState> := None,
                delaySeconds: real := 0.0, errorMessage: Option<string> := None): StateTransition
  {
    StateTransition(success, nextState, delaySeconds, errorMessage)
  }

  /** `ok`: success, optionally naming the state to switch to. */
  function Ok(nextState: Option<DownloadState> := None): (t: StateTransition)
    ensures t.success && t.nextState == nextState
    ensures t.delaySeconds == 0.0 && t.errorMessage.None?
  {
    Make(true, nextState := nextState)
  }

  /** `transition`: a successful switch, defined through `ok`. */
  function Transition(nextState: DownloadState): (t: StateTransition)
    ensures t == Ok(Some(nextState))
    ensures t.success && t.nextState == Some(nextState)
    ensures t.delaySeconds == 0.0 && t.errorMessage.None?
  {
    Ok(nextState := Some(nextState))
  }

  /** `poll`: success, stay in `state` and come back after `delaySeconds`. */
  function Poll(state: DownloadState, delaySeconds: real): (t: StateTransition)
    ensures t.success && t.nextState == Some(state)
    ensures t.delaySeconds == delaySeconds && t.errorMessage.None?
  {
    Make(true, nextState := Some(state), delaySeconds := delaySeconds)
  }

  /** `fail`: failure carrying its reason; no next state and no delay. */
  function Fail(errorMessage: string): (t: StateTransition)
    ensures !t.success && t.errorMessage == Some(errorMessage)
    ensures t.nextState.None? && t.delaySeconds == 0.0
  {
    Make(false, errorMessage := Some(errorMessage))
  }

  /** A call of one of the four semantic constructors. */
  datatype ConstructorCall =
    | OkCall(next: Option<DownloadState>)
    | TransitionCall(to: DownloadState)
    | PollCall(state: DownloadState, delay: real)
    | FailCall(message: string)

  /**
   The field combinations the semantic constructors can produce: a failure
   carries a message and nothing else; a success carries no message, and a
   non-zero delay only together with a state to come back to.
   */
  predicate WellFormed(t: StateTransition) {
    if t.success then t.errorMessage.None? && (t.delaySeconds != 0.0 ==> t.nextState.Some?)
    else t.errorMessage.Some? && t.nextState.None? && t.delaySeconds == 0.0
  }

  function Build(c: ConstructorCall): (t: StateTransition)
    ensures WellFormed(t)
    ensures t.errorMessage.Some? <==> !t.success
    ensures t.delaySeconds != 0.0 ==> c.PollCall?
    ensures !t.success <==> c.FailCall?
  {
    match c
    case OkCall(next) => Ok(next)
    case TransitionCall(to) => Transition(to)
    case PollCall(state, delay) => Poll(state, delay)
    case FailCall(message) => Fail(message)
  }

  /**
   Reads a well-formed transition back as the constructor call that builds it:
   the tagged-variant view of the four optional fields.
   */
  function Classify(t: StateTransition): (c: ConstructorCall)
    requires WellFormed(t)
  {
    if !t.success then FailCall(t.errorMessage.value)
    else if t.delaySeconds != 0.0 then PollCall(t.nextState.value, t.delaySeconds)
    else OkCall(t.nextState)
  }

  lemma ClassifyBuilds(t: StateTransition)
    requires WellFormed(t)
    ensures Build(Classify(t)) == t
  {
  }

  /** The well-formed transitions are exactly those the semantic constructors build. */
  lemma ConstructibleIffWellFormed(t: StateTransition)
    ensures WellFormed(t) <==> exists c :: Build(c) == t
  {
    if WellFormed(t) {
      ClassifyBuilds(t);
    }
  }

  /**
   How the manager reads a transition, as the field documentation states it:
   `success = false` sends the task to the failure flow whatever the other
   fields say; otherwise `next_state`, when given, is the state to switch to,
   and without it the task stays where it is.
   */
  function NextStateAfter(current: DownloadState, t: StateTransition): (s: DownloadState)
    ensures !t.success ==> s == Failed
    ensures t.success && t.nextState.None? ==> s == current
    ensures t.success && t.nextState.Some? ==> s == t.nextState.value
  {
    if !t.success then Failed
    else if t.nextState.Some? then t.nextState.value
    else current
  }

  /** Only the success flag decides a failure; next state, delay and message are ignored. */
  lemma FailureIgnoresOtherFields(current: DownloadState, t: StateTransition, u: StateTransition)
    requires !t.success && !u.success
    ensures NextStateAfter(current, t) == NextStateAfter(current, u) == Failed
  {
  }

  /** The constructors' meaning under that reading. */
  lemma ConstructorOutcomes(current: DownloadState, s: DownloadState, d: real, msg: string)
    ensures NextStateAfter(current, Fail(msg)) == Failed
    ensures NextStateAfter(current, Transition(s)) == s
    ensures NextStateAfter(s, Poll(s, d)) == s
    ensures NextStateAfter(current, Ok()) == current
  {
  }

  /** The four handlers of `BaseDownloader`. */
  datatype Handler = HandlePending | HandleDownloading | HandleDownloaded | HandlePostProcessing

  /** Which handler serves a state; terminal states have none. */
  function HandlerFor(s: DownloadState): (h: Option<Handler>)
    ensures h.None? <==> IsTerminal(s)
    ensures h == Some(HandlePending) <==> s == Pending
    ensures h == Some(HandleDownloading) <==> s == Downloading
    ensures h == Some(HandleDownloaded) <==> s == Downloaded
    ensures h == Some(HandlePostProcessing) <==> s == PostProcessing
  {
    match s
    case Pending => Some(HandlePending)
    case Downloading => Some(HandleDownloading)
    case Downloaded => Some(HandleDownloaded)
    case PostProcessing => Some(HandlePostProcessing)
    case _ => None
  }

  /**
   A downloader: its type identifier and its four handlers. The handlers do
   backend I/O in the source; here each is a given function of the task.
   */
  datatype Downloader<!Task> = Downloader(
    downloaderType: string,
    handlePending: Task -> StateTransition,
    handleDownloading: Task -> StateTransition,
    handleDownloaded: Task -> StateTransition,
    handlePostProcessing: Task -> StateTransition)

  /** Runs the handler that serves `s`, if `s` is not terminal. */
  function Dispatch<Task>(d: Downloader<Task>, s: DownloadState, task: Task): (r: Option<StateTransition>)
    ensures r.None? <==> IsTerminal(s)
    ensures s == Pending ==> r == Some(d.handlePending(task))
    ensures s == Downloading ==> r == Some(d.handleDownloading(task))
    ensures s == Downloaded ==> r == Some(d.handleDownloaded(task))
    ensures s == PostProcessing ==> r == Some(d.handlePostProcessing(task))
  {
    match HandlerFor(s)
    case None => None
    case Some(HandlePending) => Some(d.handlePending(task))
    case Some(HandleDownloading) => Some(d.handleDownloading(task))
    case Some(HandleDownloaded) => Some(d.handleDownloaded(task))
    case Some(HandlePostProcessing) => Some(d.handlePostProcessing(task))
  }
}
