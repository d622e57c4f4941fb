/**
 The handler itself: its callbacks, the closures it posts and the loop of its reader job,
 each proved to be the matching steps of the protocol.
 */
module FileServer {
  import opened StreamProtocol
  import StreamProofs
  import StreamTheorems

  class FileServerRequestHandler {
    // The handler's own fields.
    var fileOpen: bool
    var readFileScheduled: bool
    var paused: bool
    var finished: bool

    // Its surroundings: the request, the open file's offset, the executor,
    // the event base, the connection, and how often the handler was deleted.
    var mode: Mode
    var offset: nat
    var jobs: seq<Job>
    var queue: seq<Task>
    var wire: seq<Wire>
    var terminated: bool
    var deletions: nat

    /** The steps taken so far. */
    ghost var trace: seq<Action>

    function View(): State
      reads this
    {
      State(fileOpen, readFileScheduled, paused, finished, mode, offset, jobs, queue, wire, terminated, deletions)
    }

    /** The object is where its trace leads, so all that holds of reachable states holds of it. */
    ghost predicate Valid()
      reads this
    {
      ValidRun(INITIAL, trace) && Run(INITIAL, trace) == View()
    }

    constructor ()
      ensures Valid() && trace == [] && View() == INITIAL
    {
      fileOpen, readFileScheduled, paused, finished := false, false, false, false;
      mode, offset, jobs, queue, wire := Fresh, 0, [], [], [];
      terminated, deletions, trace := false, 0, [];
    }

    /** Adds a step just taken to the trace. */
    ghost method Record(before: State, a: Action)
      requires ValidRun(INITIAL, trace) && Run(INITIAL, trace) == before
      requires Enabled(before, a) && View() == Step(before, a)
      modifies this`trace
      ensures Valid() && trace == old(trace) + [a]
    {
      StreamTheorems.RunSnoc(INITIAL, trace, a);
      trace := trace + [a];
    }

    // ---- Callbacks on the event-base thread ----

    /** Opening succeeded: answers with the status line and hands the work to the executor. */
    method Accept(mode: Mode, job: Job)
      modifies this`mode, this`fileOpen, this`wire, this`readFileScheduled, this`jobs
      ensures View() == old(View()).(mode := mode, fileOpen := true, wire := old(wire) + [Head(200)],
                                     scheduled := true, jobs := old(jobs) + [job])
    {
      this.mode, fileOpen, wire := mode, true, wire + [Head(200)];
      readFileScheduled := true;
      jobs := jobs + [job];
    }

    method OnRequest(request: Request)
      requires Valid() && Enabled(View(), Action.OnRequest(request))
      modifies this
      ensures Valid() && trace == old(trace) + [Action.OnRequest(request)]
      ensures View() == DoRequest(old(View()), request)
    {
      ghost var before := View();
      match request {
        case NotGet => mode, wire := Rejected, wire + [Reply(400)];
        case Missing => mode, wire := Rejected, wire + [Reply(404)];
        case Directory(html) => Accept(Listing(html), Lister(html));
        case Regular(bytes) =>
          offset := 0;
          Accept(Serving(bytes), Queued);
      }
      Record(before, Action.OnRequest(request));
    }

    method CheckForCompletion() returns (deleted: bool)
      modifies this`deletions
      ensures View() == DoCheckForCompletion(old(View()))
      ensures deleted == Completes(old(View()))
    {
      if finished && !readFileScheduled {
        deletions := deletions + 1;
        return true;
      }
      return false;
    }

    method Resume()
      modifies this`paused, this`readFileScheduled, this`jobs
      ensures View() == DoResume(old(View()))
    {
      paused := false;
      if !readFileScheduled && fileOpen {
        readFileScheduled := true;
        jobs := jobs + [Queued];
      }
    }

    method OnEgressPaused()
      requires Valid() && Enabled(View(), Action.OnEgressPaused)
      modifies this
      ensures Valid() && trace == old(trace) + [Action.OnEgressPaused]
      ensures View() == Step(old(View()), Action.OnEgressPaused)
    {
      ghost var before := View();
      paused := true;
      Record(before, Action.OnEgressPaused);
    }

    method OnEgressResumed()
      requires Valid() && Enabled(View(), Action.OnEgressResumed)
      modifies this
      ensures Valid() && trace == old(trace) + [Action.OnEgressResumed]
      ensures View() == Step(old(View()), Action.OnEgressResumed)
    {
      ghost var before := View();
      Resume();
      Record(before, Action.OnEgressResumed);
    }

    method RequestComplete()
      requires Valid() && Enabled(View(), Action.RequestComplete)
      modifies this
      ensures Valid() && trace == old(trace) + [Action.RequestComplete]
      ensures View() == Step(old(View()), Action.RequestComplete)
    {
      ghost var before := View();
      finished, paused, terminated := true, true, true;
      var _ := CheckForCompletion();
      Record(before, Action.RequestComplete);
    }

    method OnError()
      requires Valid() && Enabled(View(), Action.OnError)
      modifies this
      ensures Valid() && trace == old(trace) + [Action.OnError]
      ensures View() == Step(old(View()), Action.OnError)
    {
      ghost var before := View();
      finished, paused, terminated := true, true, true;
      var _ := CheckForCompletion();
      Record(before, Action.OnError);
    }

    /** The closure that tells the event base that a reader is out of its loop. */
    method Notified()
      modifies this`readFileScheduled, this`deletions, this`paused, this`jobs
      ensures View() == DoNotify(old(View()))
    {
      readFileScheduled := false;
      var deleted := CheckForCompletion();
      if !deleted && !paused {
        Resume();
      }
    }

    /** The closures that only send. */
    method Send(task: Task)
      requires !task.Notify?
      modifies this`wire, this`finished
      ensures View() == old(View()).(wire := old(wire) + TaskWires(task),
                                     finished := old(finished) || task.SendListing?)
    {
      match task {
        case SendChunk(bytes) => wire := wire + [Body(bytes)];
        case SendEom => wire := wire + [Eom];
        case SendAbort => wire := wire + [Abort];
        case SendListing(html) =>
          wire := wire + [Body(html), Eom];
          finished := true;
      }
    }

    /** The event base runs the closure at the head of its queue. */
    method RunTask()
      requires Valid() && queue != []
      modifies this
      ensures Valid() && trace == old(trace) + [Action.RunTask]
      ensures View() == Step(old(View()), Action.RunTask)
    {
      ghost var before := View();
      var task := queue[0];
      queue := queue[1..];
      if task.Notify? {
        Notified();
      } else {
        Send(task);
      }
      Record(before, Action.RunTask);
    }

    method Dispatch(a: Action)
      requires Valid() && Enabled(View(), a) && !a.JobStep?
      modifies this
      ensures Valid() && trace == old(trace) + [a]
      ensures View() == Step(old(View()), a)
    {
      match a {
        case OnRequest(request) => OnRequest(request);
        case OnEgressPaused => OnEgressPaused();
        case OnEgressResumed => OnEgressResumed();
        case RequestComplete => RequestComplete();
        case OnError => OnError();
        case RunTask => RunTask();
      }
    }

    // ---- Jobs on the CPU executor ----

    /** The schedule decides what the event base does between two steps of a job. */
    method Interleave(others: seq<Action>)
      requires Valid() && jobs != []
      modifies this
      ensures Valid() && old(trace) <= trace
      ensures jobs == old(jobs) && mode == old(mode) && offset == old(offset) && fileOpen == old(fileOpen)
    {
      for k := 0 to |others|
        invariant Valid() && old(trace) <= trace
        invariant jobs == old(jobs) && mode == old(mode) && offset == old(offset) && fileOpen == old(fileOpen)
      {
        if !others[k].JobStep? && Enabled(View(), others[k]) {
          StreamProofs.RunKeepsInv(INITIAL, trace);
          StreamTheorems.EventBaseLeavesJobs(View(), others[k]);
          Dispatch(others[k]);
        }
      }
    }

    /** One step of the job in which only its own position changes. */
    method MoveTo(next: Job)
      requires Valid() && |jobs| == 1 && !jobs[0].Reading? && DoJob(View(), 0, ReadError) == At(View(), 0, next)
      modifies this`jobs, this`trace
      ensures Valid() && old(trace) <= trace && jobs == [next]
    {
      ghost var before := View();
      jobs := [next];
      assert before.jobs[0 := next] == jobs;
      Record(before, JobStep(0, ReadError));
    }

    method PostAndMoveTo(task: Task, next: Job)
      requires Valid() && |jobs| == 1 && !jobs[0].Reading? &&
               DoJob(View(), 0, ReadError) == Post(At(View(), 0, next), task)
      modifies this`jobs, this`queue, this`trace
      ensures Valid() && old(trace) <= trace && jobs == [next]
    {
      ghost var before := View();
      queue := queue + [task];
      jobs := [next];
      assert before.jobs[0 := next] == jobs;
      Record(before, JobStep(0, ReadError));
    }

    /** `readNoInt`: an outcome the file does not allow counts as an error. */
    method ReadNoInt(proposed: ReadOutcome) returns (rc: ReadOutcome)
      requires Valid() && mode.Serving? && jobs == [Reading]
      modifies this`jobs, this`offset, this`trace
      ensures Valid() && old(trace) <= trace
      ensures offset == old(offset) + (if rc.ReadSome? then rc.count else 0)
      ensures match rc
              case ReadError => jobs == [Failed]
              case ReadZero => jobs == [AtEof]
              case ReadSome(n) =>
                n >= 1 && offset <= |mode.content| && jobs == [HasChunk(mode.content[old(offset)..offset])]
    {
      ghost var before := View();
      rc := if LegalRead(View(), proposed) then proposed else ReadError;
      match rc {
        case ReadError => jobs := [Failed];
        case ReadZero => jobs := [AtEof];
        case ReadSome(n) =>
          jobs := [HasChunk(mode.content[offset..offset + n])];
          offset := offset + n;
      }
      assert before.jobs[0 := jobs[0]] == jobs;
      Record(before, JobStep(0, rc));
    }

    /** Closes the file, then posts how the transfer ends; the event base may run in between. */
    method Close(task: Task, others: seq<Action>)
      requires Valid() && ((jobs == [AtEof] && task == SendEom) || (jobs == [Failed] && task == SendAbort))
      modifies this
      ensures Valid() && old(trace) <= trace && jobs == [Exiting] && !fileOpen && mode == old(mode)
    {
      ghost var before := View();
      fileOpen := false;
      jobs := [if task.SendEom? then EofClosed else ErrorClosed];
      assert before.jobs[0 := jobs[0]] == jobs;
      Record(before, JobStep(0, ReadError));
      Interleave(others);
      PostAndMoveTo(task, Exiting);
    }

    /** The job ends by posting its last closure. */
    method Leave(task: Task)
      requires Valid()
      requires || (jobs == [Exiting] && task == Notify)
               || (mode.Listing? && jobs == [Lister(mode.html)] && task == SendListing(mode.html))
      modifies this`jobs, this`queue, this`trace
      ensures Valid() && old(trace) <= trace && jobs == [] && queue == old(queue) + [task]
    {
      ghost var before := View();
      queue := queue + [task];
      jobs := [];
      assert before.jobs[..0] + before.jobs[1..] == jobs;
      Record(before, JobStep(0, ReadError));
    }

    /** One turn of the reader's loop, from the test that has just succeeded. */
    method ReadChunk(proposed: ReadOutcome, others: nat -> seq<Action>) returns (more: bool)
      requires Valid() && mode.Serving? && jobs == [Testing] && fileOpen && !paused
      modifies this
      ensures Valid() && old(trace) <= trace && mode == old(mode)
      ensures more ==> jobs == [Testing] && old(offset) < offset <= |mode.content|
      ensures !more ==> jobs == [Exiting] && !fileOpen
    {
      MoveTo(Reading);
      Interleave(others(0));
      var rc := ReadNoInt(proposed);
      Interleave(others(1));
      match rc {
        case ReadError => Close(SendAbort, others(2));
        case ReadZero => Close(SendEom, others(2));
        case ReadSome(_) => PostAndMoveTo(SendChunk(jobs[0].bytes), Testing);
      }
      more := rc.ReadSome?;
    }

    /** The reader's loop, under every schedule of the event base and every legal outcome of the
        reads: it ends, and every state on the way is one the protocol reaches. */
    method ReadFile(others: (nat, nat) -> seq<Action>, outcomes: nat -> ReadOutcome)
      requires Valid() && mode.Serving? && jobs == [Queued]
      modifies this
      ensures Valid() && old(trace) <= trace
      ensures jobs == [] && queue != [] && queue[|queue| - 1] == Notify
    {
      StreamProofs.RunKeepsInv(INITIAL, trace);
      MoveTo(Testing);
      var n := 0;
      while fileOpen && !paused
        invariant Valid() && old(trace) <= trace
        invariant mode == old(mode) && jobs == [Testing] && offset <= |mode.content|
        decreases |mode.content| - offset
      {
        var more := ReadChunk(outcomes(n), (k: nat) => others(n, k));
        Interleave(others(n, 3));
        if !more {
          break;
        }
        n := n + 1;
      }
      if jobs == [Testing] {
        MoveTo(Exiting);
      }
      Interleave(others(n, 4));
      Leave(Notify);
    }

    method ListFiles()
      requires Valid() && mode.Listing? && jobs == [Lister(mode.html)]
      modifies this`jobs, this`queue, this`trace
      ensures Valid() && old(trace) <= trace && jobs == [] && queue == old(queue) + [SendListing(mode.html)]
    {
      Leave(SendListing(mode.html));
    }
  }
}
