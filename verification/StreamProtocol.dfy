/**
 The two-thread protocol of the static file handler, as a state machine.

 The event-base thread runs the handler's callbacks and the closures posted to it, each as
 one atomic step.  A job on the CPU executor runs `readFile` (or `listFiles`) and may be
 interrupted between any two of its accesses to shared state.  The fields `fileOpen`,
 `scheduled`, `paused` and `finished` are the handler's own; the rest of the state is the
 open file, the executor's jobs, the event base's FIFO queue and what was sent downstream.
 */
module StreamProtocol {

  newtype Byte = b: int | 0 <= b < 256

  type BufferSize = n: nat | 4000 <= n witness 4000

  /** What a read can take at most: the buffer has room for 4000 bytes, or more if the allocator gave more. */
  const CHUNK_LIMIT: BufferSize

  /** What the handler finds out about a request in `onRequest`. */
  datatype Request =
    | NotGet
    | Missing
    | Directory(html: seq<Byte>)
    | Regular(bytes: seq<Byte>)

  datatype Mode =
    | Fresh
    | Rejected
    | Listing(html: seq<Byte>)
    | Serving(content: seq<Byte>)

  /** What the handler sends downstream; `Reply` is a whole error response, end of message included. */
  datatype Wire = Head(status: nat) | Reply(status: nat) | Body(bytes: seq<Byte>) | Eom | Abort

  /** Closures posted to the event base; each of them captures the handler. */
  datatype Task = SendChunk(bytes: seq<Byte>) | SendEom | SendAbort | Notify | SendListing(html: seq<Byte>)

  /** Where a job on the CPU executor stands. */
  datatype Job =
    | Queued                      // handed to the executor, not started
    | Testing                     // at the loop test
    | Reading                     // past the test, before the read returns
    | HasChunk(bytes: seq<Byte>)  // read some bytes, closure not yet posted
    | AtEof                       // read returned 0, file not yet closed
    | Failed                      // read returned an error, file not yet closed
    | EofClosed                   // file closed, end of message not yet posted
    | ErrorClosed                 // file closed, abort not yet posted
    | Exiting                     // out of the loop, notification not yet posted
    | Lister(html: seq<Byte>)     // the directory listing job

  datatype State = State(
    fileOpen: bool, scheduled: bool, paused: bool, finished: bool,
    mode: Mode, offset: nat,
    jobs: seq<Job>, queue: seq<Task>, wire: seq<Wire>,
    terminated: bool, deletions: nat)

  const INITIAL := State(false, false, false, false, Fresh, 0, [], [], [], false, 0)

  datatype ReadOutcome = ReadError | ReadZero | ReadSome(count: nat)

  datatype Action =
    | OnRequest(request: Request)
    | OnEgressPaused
    | OnEgressResumed
    | RequestComplete
    | OnError
    | RunTask
    | JobStep(index: nat, outcome: ReadOutcome)

  /** The steps the server takes by itself, without a callback from the connection. */
  predicate Internal(a: Action) {
    a.RunTask? || a.JobStep?
  }

  /** A read returns an error, or 0 exactly at the end, or some of the bytes left. */
  predicate LegalRead(s: State, outcome: ReadOutcome) {
    s.mode.Serving? &&
    match outcome
    case ReadError => true
    case ReadZero => s.offset == |s.mode.content|
    case ReadSome(n) => 1 <= n <= CHUNK_LIMIT && s.offset + n <= |s.mode.content|
  }

  /** The connection calls `onRequest` at most once, and nothing after its terminal callback; an error
      may come before any request.  Nothing here asks that the handler still exists: that is a theorem. */
  predicate Enabled(s: State, a: Action) {
    match a
    case OnRequest(_) => s.mode.Fresh? && !s.terminated
    case OnEgressPaused => !s.terminated
    case OnEgressResumed => !s.terminated
    case RequestComplete => !s.terminated
    case OnError => !s.terminated
    case RunTask => s.queue != []
    case JobStep(i, outcome) => i < |s.jobs| && (s.jobs[i].Reading? ==> LegalRead(s, outcome))
  }

  function DoRequest(s: State, request: Request): State {
    match request
    case NotGet => s.(mode := Rejected, wire := s.wire + [Reply(400)])
    case Missing => s.(mode := Rejected, wire := s.wire + [Reply(404)])
    case Directory(html) =>
      s.(mode := Listing(html), fileOpen := true, wire := s.wire + [Head(200)],
         scheduled := true, jobs := s.jobs + [Lister(html)])
    case Regular(bytes) =>
      s.(mode := Serving(bytes), offset := 0, fileOpen := true, wire := s.wire + [Head(200)],
         scheduled := true, jobs := s.jobs + [Queued])
  }

  predicate Completes(s: State) {
    s.finished && !s.scheduled
  }

  function DoCheckForCompletion(s: State): State {
    if Completes(s) then s.(deletions := s.deletions + 1) else s
  }

  function DoTerminal(s: State): State {
    DoCheckForCompletion(s.(finished := true, paused := true, terminated := true))
  }

  function DoResume(s: State): State {
    if !s.scheduled && s.fileOpen then
      s.(paused := false, scheduled := true, jobs := s.jobs + [Queued])
    else
      s.(paused := false)
  }

  function DoNotify(s: State): State {
    var t := s.(scheduled := false);
    if !Completes(t) && !t.paused then DoResume(t) else DoCheckForCompletion(t)
  }

  function DoTask(s: State): State
    requires s.queue != []
  {
    var t := s.(queue := s.queue[1..]);
    match s.queue[0]
    case SendChunk(bytes) => t.(wire := t.wire + [Body(bytes)])
    case SendEom => t.(wire := t.wire + [Eom])
    case SendAbort => t.(wire := t.wire + [Abort])
    case SendListing(html) => t.(wire := t.wire + [Body(html), Eom], finished := true)
    case Notify => DoNotify(t)
  }

  function At(s: State, i: nat, job: Job): State
    requires i < |s.jobs|
  {
    s.(jobs := s.jobs[i := job])
  }

  function Post(s: State, task: Task): State {
    s.(queue := s.queue + [task])
  }

  function DoRead(s: State, i: nat, outcome: ReadOutcome): State
    requires i < |s.jobs| && LegalRead(s, outcome)
  {
    match outcome
    case ReadError => At(s, i, Failed)
    case ReadZero => At(s, i, AtEof)
    case ReadSome(n) =>
      At(s, i, HasChunk(s.mode.content[s.offset..s.offset + n])).(offset := s.offset + n)
  }

  function EndJob(s: State, i: nat): State
    requires i < |s.jobs|
  {
    s.(jobs := s.jobs[..i] + s.jobs[i + 1..])
  }

  function DoJob(s: State, i: nat, outcome: ReadOutcome): State
    requires Enabled(s, JobStep(i, outcome))
  {
    match s.jobs[i]
    case Queued => At(s, i, Testing)
    case Testing => At(s, i, if s.fileOpen && !s.paused then Reading else Exiting)
    case Reading => DoRead(s, i, outcome)
    case HasChunk(bytes) => Post(At(s, i, Testing), SendChunk(bytes))
    case AtEof => At(s, i, EofClosed).(fileOpen := false)
    case Failed => At(s, i, ErrorClosed).(fileOpen := false)
    case EofClosed => Post(At(s, i, Exiting), SendEom)
    case ErrorClosed => Post(At(s, i, Exiting), SendAbort)
    case Exiting => Post(EndJob(s, i), Notify)
    case Lister(html) => Post(EndJob(s, i), SendListing(html))
  }

  function Step(s: State, a: Action): State
    requires Enabled(s, a)
  {
    match a
    case OnRequest(request) => DoRequest(s, request)
    case OnEgressPaused => s.(paused := true)
    case OnEgressResumed => DoResume(s)
    case RequestComplete => DoTerminal(s)
    case OnError => DoTerminal(s)
    case RunTask => DoTask(s)
    case JobStep(i, outcome) => DoJob(s, i, outcome)
  }

  /** Runs: sequences of actions, each enabled where it is taken. */
  predicate ValidRun(s: State, run: seq<Action>)
    decreases |run|
  {
    run == [] || (Enabled(s, run[0]) && ValidRun(Step(s, run[0]), run[1..]))
  }

  function Run(s: State, run: seq<Action>): State
    requires ValidRun(s, run)
    decreases |run|
  {
    if run == [] then s else Run(Step(s, run[0]), run[1..])
  }

  ghost predicate Reachable(s: State) {
    exists run :: ValidRun(INITIAL, run) && Run(INITIAL, run) == s
  }

  /** Nothing left to do until the connection calls back. */
  predicate Drained(s: State) {
    s.jobs == [] && s.queue == []
  }

  /** The bytes among what was sent. */
  function Payload(ws: seq<Wire>): seq<Byte> {
    if ws == [] then [] else (if ws[0].Body? then ws[0].bytes else []) + Payload(ws[1..])
  }

  /** What a queued closure will send. */
  function TaskWires(task: Task): seq<Wire> {
    match task
    case SendChunk(bytes) => [Body(bytes)]
    case SendEom => [Eom]
    case SendAbort => [Abort]
    case SendListing(html) => [Body(html), Eom]
    case Notify => []
  }

  function QueueWires(queue: seq<Task>): seq<Wire> {
    if queue == [] then [] else TaskWires(queue[0]) + QueueWires(queue[1..])
  }

  /** What a job has taken from the file but not posted yet. */
  function JobWires(job: Job): seq<Wire> {
    match job
    case HasChunk(bytes) => [Body(bytes)]
    case EofClosed => [Eom]
    case ErrorClosed => [Abort]
    case Lister(html) => [Body(html), Eom]
    case _ => []
  }

  function JobsWires(jobs: seq<Job>): seq<Wire> {
    if jobs == [] then [] else JobWires(jobs[0]) + JobsWires(jobs[1..])
  }

  /** Everything sent, queued or in hand, in the order in which the client sees it. */
  function Pipeline(s: State): seq<Wire> {
    s.wire + QueueWires(s.queue) + JobsWires(s.jobs)
  }
}
