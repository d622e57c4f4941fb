/**
 The promises of the static file handler, over every run and every interleaving.
 */
module StreamTheorems {
  import opened StreamProtocol
  import opened StreamProofs

  // ---- What the client has received ----

  /** Delivered bytes, then bytes queued, then bytes in the reader's hands,
      are the first `offset` bytes of the file. */
  lemma StreamIsPrefix(s: State)
    requires Reachable(s) && s.mode.Serving?
    ensures s.offset <= |s.mode.content|
    ensures Payload(s.wire) + Payload(QueueWires(s.queue)) + Payload(JobsWires(s.jobs)) == s.mode.content[..s.offset]
    ensures forall i :: 0 <= i < |s.wire| && s.wire[i].Body? ==> 1 <= |s.wire[i].bytes| <= CHUNK_LIMIT
  {
    ReachableInv(s);
    PayloadConcat(s.wire + QueueWires(s.queue), JobsWires(s.jobs));
    PayloadConcat(s.wire, QueueWires(s.queue));
    var p := Pipeline(s);
    forall i | 0 <= i < |s.wire| && s.wire[i].Body?
      ensures 1 <= |s.wire[i].bytes| <= CHUNK_LIMIT
    {
      assert p[i] == s.wire[i];
      if s.fileOpen {
        assert p[1..][i - 1] == p[i];
      } else {
        assert p[1..|p| - 1][i - 1] == p[i];
      }
    }
  }

  /** The head of a 200, then body bytes only, then one last mark. */
  ghost predicate Framed(ws: seq<Wire>, last: Wire) {
    && |ws| >= 2 && ws[0] == Head(200) && ws[|ws| - 1] == last
    && forall i :: 0 < i < |ws| - 1 ==> ws[i].Body?
  }

  /** The whole file, between one head and one end of message. */
  ghost predicate Complete(s: State) {
    s.mode.Serving? && Framed(s.wire, Eom) && Payload(s.wire) == s.mode.content
  }

  /** Some prefix of the file, between one head and one abort. */
  ghost predicate Aborted(s: State) {
    s.mode.Serving? && Framed(s.wire, Abort) && Payload(s.wire) <= s.mode.content
  }

  lemma ChunksAreFramed(p: seq<Wire>)
    requires |p| >= 2 && p[0] == Head(200) && Chunks(p[1..|p| - 1])
    ensures Framed(p, p[|p| - 1])
  {
    forall i | 0 < i < |p| - 1 ensures p[i].Body? {
      assert p[1..|p| - 1][i - 1] == p[i];
    }
  }

  /** With nothing left to do, nothing paused, the client holds exactly one of the two endings. */
  lemma QuiescentIsFinal(s: State)
    requires Reachable(s) && s.mode.Serving? && Drained(s) && !s.paused
    ensures Complete(s) != Aborted(s)
  {
    ReachableInv(s);
    PipelineWithoutJob(s);
    assert QueueWires([]) == [];
    assert s.wire + [] == s.wire;
    assert s.wire == Pipeline(s);
    ChunksAreFramed(s.wire);
    assert s.mode.content[..|s.mode.content|] == s.mode.content;
  }

  // ---- Lifetime ----

  /** The handler is deleted at most once, and after that nothing can touch it:
      no job, no queued closure and no callback is left. */
  lemma NoUseAfterDelete(s: State, a: Action)
    requires Reachable(s)
    ensures s.deletions <= 1
    ensures s.deletions > 0 ==> !Enabled(s, a)
  {
    ReachableInv(s);
  }

  /** Once the connection is over and the server has drained, the handler is gone,
      unless it was listing a directory: that handler is never deleted. */
  lemma DrainedIsDeleted(s: State)
    requires Reachable(s) && s.terminated && Drained(s)
    ensures s.deletions == 1 <==> !s.mode.Listing?
  {
    ReachableInv(s);
  }

  /** A handler whose first callback is its last, like that of a request which the authentication filter
      rejects, is deleted just then; it has sent nothing, and no step is left. */
  lemma TerminalFirstEndsAll(run: seq<Action>)
    requires ValidRun(INITIAL, run) && run != [] && (run[0] == OnError || run[0] == RequestComplete)
    ensures run == [run[0]]
    ensures var s := Run(INITIAL, run); s.deletions == 1 && s.wire == [] && forall a :: !Enabled(s, a)
  {
    var s := Step(INITIAL, run[0]);
    assert forall a :: !Enabled(s, a);
    assert run[1..] == [];
    assert Run(s, []) == s;
  }

  lemma ListingIsNeverDeleted(s: State)
    requires Reachable(s) && s.mode.Listing?
    ensures s.deletions == 0
  {
    ReachableInv(s);
  }

  // ---- Scheduling ----

  lemma NoLostWakeup(s: State)
    requires Reachable(s) && s.mode.Serving?
    ensures s.fileOpen && !s.paused ==> s.scheduled
    ensures s.scheduled <==> s.jobs != [] || Notify in s.queue
  {
    ReachableInv(s);
    if s.scheduled && s.jobs == [] {
      assert s.queue[|s.queue| - 1] in s.queue;
    }
  }

  /** Event-base steps that look at the file pointer after `onRequest`. */
  predicate LooksAtFile(s: State, a: Action) {
    match a
    case OnEgressResumed => !s.scheduled
    case RunTask => s.queue != [] && s.queue[0].Notify? && !s.finished && !s.paused
    case _ => false
  }

  /** One job at most, which never reads from a closed file; and the event base
      looks at the file pointer only while there is no job. */
  lemma FileHasOneOwner(s: State, a: Action)
    requires Reachable(s)
    ensures |s.jobs| <= 1
    ensures Reading in s.jobs ==> s.fileOpen
    ensures Enabled(s, a) && LooksAtFile(s, a) ==> s.jobs == []
  {
    ReachableInv(s);
  }

  lemma JobIsScheduled(s: State)
    requires Inv(s) && s.jobs != []
    ensures !s.mode.Fresh? && s.scheduled && (s.queue != [] ==> !s.queue[0].Notify?)
  {
  }

  lemma ScheduledKeepsJobs(s: State, a: Action)
    requires !s.mode.Fresh? && s.scheduled && (s.queue != [] ==> !s.queue[0].Notify?)
    requires Enabled(s, a) && !a.JobStep?
    ensures var t := Step(s, a);
            t.jobs == s.jobs && t.mode == s.mode && t.offset == s.offset && t.fileOpen == s.fileOpen
  {
  }

  /** While a job runs, the event base starts no other one and leaves the file to it. */
  lemma EventBaseLeavesJobs(s: State, a: Action)
    requires Inv(s) && s.jobs != [] && Enabled(s, a) && !a.JobStep?
    ensures var t := Step(s, a);
            t.jobs == s.jobs && t.mode == s.mode && t.offset == s.offset && t.fileOpen == s.fileOpen
  {
    JobIsScheduled(s);
    ScheduledKeepsJobs(s, a);
  }

  // ---- Termination ----

  function JobWeight(job: Job, live: bool): nat {
    match job
    case Queued => if live then 11 else 4
    case Testing => if live then 10 else 3
    case Reading => 9
    case HasChunk(_) => 12
    case AtEof => 8
    case Failed => 8
    case EofClosed => 5
    case ErrorClosed => 5
    case Exiting => if live then 13 else 2
    case Lister(_) => 2
  }

  function QueueWeight(queue: seq<Task>, live: bool): nat {
    |queue| + if queue != [] && queue[|queue| - 1].Notify? && live then 11 else 0
  }

  function Unread(s: State): nat {
    if s.mode.Serving? && s.offset <= |s.mode.content| then |s.mode.content| - s.offset else 0
  }

  /** A bound on the steps the server can take before the connection calls back. */
  function Measure(s: State): nat {
    var live := s.fileOpen && !s.paused;
    4 * Unread(s) + (if s.jobs == [] then 0 else JobWeight(s.jobs[0], live)) + QueueWeight(s.queue, live)
  }

  lemma SendTakesTask(s: State)
    requires s.queue != [] && !s.queue[0].Notify?
    ensures var t := DoTask(s);
            t.queue == s.queue[1..] && t.jobs == s.jobs && t.mode == s.mode && t.offset == s.offset &&
            t.fileOpen == s.fileOpen && t.paused == s.paused
  {
    match s.queue[0] {
      case SendChunk(_) =>
      case SendEom =>
      case SendAbort =>
      case SendListing(_) =>
    }
  }

  lemma QueueShrinks(queue: seq<Task>, live: bool)
    requires queue != []
    ensures QueueWeight(queue[1..], live) < QueueWeight(queue, live)
  {
  }

  lemma SendDecreases(s: State)
    requires s.queue != [] && !s.queue[0].Notify?
    ensures Measure(DoTask(s)) < Measure(s)
  {
    SendTakesTask(s);
    QueueShrinks(s.queue, s.fileOpen && !s.paused);
  }

  lemma NotifyDecreases(s: State)
    requires ControlOk(s) && s.queue != [] && s.queue[0].Notify?
    ensures Measure(DoTask(s)) < Measure(s)
  {
  }

  lemma ReadDecreases(s: State, outcome: ReadOutcome)
    requires ControlOk(s) && s.jobs == [Reading] && LegalRead(s, outcome)
    ensures Measure(DoRead(s, 0, outcome)) < Measure(s)
  {
  }

  lemma MoveDecreases(s: State, outcome: ReadOutcome)
    requires ControlOk(s) && s.jobs != [] && !s.jobs[0].Exiting? && !s.jobs[0].Reading?
    ensures Measure(DoJob(s, 0, outcome)) < Measure(s)
  {
  }

  lemma EndDecreases(s: State, outcome: ReadOutcome)
    requires |s.jobs| == 1 && (s.jobs[0].Exiting? || s.jobs[0].Lister?)
    ensures Measure(DoJob(s, 0, outcome)) < Measure(s)
  {
  }

  lemma JobDecreases(s: State, outcome: ReadOutcome)
    requires ControlOk(s) && Enabled(s, JobStep(0, outcome))
    ensures Measure(DoJob(s, 0, outcome)) < Measure(s)
  {
    assert s.jobs == [s.jobs[0]];
    match s.jobs[0] {
      case Exiting => EndDecreases(s, outcome);
      case Reading => ReadDecreases(s, outcome);
      case _ => MoveDecreases(s, outcome);
    }
  }

  /** Every internal step brings the server closer to having drained. */
  lemma InternalDecreases(s: State, a: Action)
    requires Inv(s) && Enabled(s, a) && Internal(a)
    ensures Measure(Step(s, a)) < Measure(s)
  {
    if a.RunTask? {
      if s.queue[0].Notify? {
        NotifyDecreases(s);
      } else {
        SendDecreases(s);
      }
    } else {
      assert a.index == 0;
      if s.jobs[0].Lister? {
        EndDecreases(s, a.outcome);
      } else {
        JobDecreases(s, a.outcome);
      }
    }
  }

  ghost predicate SameConnection(s: State, t: State) {
    t.paused == s.paused && t.mode == s.mode && t.terminated == s.terminated
  }

  lemma TaskKeepsConnection(s: State)
    requires s.queue != []
    ensures SameConnection(s, DoTask(s))
  {
  }

  lemma AdvanceKeepsConnection(s: State, i: nat, outcome: ReadOutcome)
    requires Enabled(s, JobStep(i, outcome)) && (s.jobs[i].Queued? || s.jobs[i].Testing? || s.jobs[i].Reading?)
    ensures SameConnection(s, DoJob(s, i, outcome)) && DoJob(s, i, outcome).wire == s.wire
  {
  }

  lemma CloseKeepsConnection(s: State, i: nat, outcome: ReadOutcome)
    requires i < |s.jobs| && (s.jobs[i].AtEof? || s.jobs[i].Failed?)
    ensures SameConnection(s, DoJob(s, i, outcome)) && DoJob(s, i, outcome).wire == s.wire
  {
  }

  lemma FinishKeepsConnection(s: State, i: nat, outcome: ReadOutcome)
    requires i < |s.jobs| && !s.jobs[i].Queued? && !s.jobs[i].Testing? && !s.jobs[i].Reading?
    requires !s.jobs[i].AtEof? && !s.jobs[i].Failed?
    ensures SameConnection(s, DoJob(s, i, outcome)) && DoJob(s, i, outcome).wire == s.wire
  {
  }

  lemma JobKeepsConnection(s: State, i: nat, outcome: ReadOutcome)
    requires Enabled(s, JobStep(i, outcome))
    ensures SameConnection(s, DoJob(s, i, outcome)) && DoJob(s, i, outcome).wire == s.wire
  {
    if s.jobs[i].Queued? || s.jobs[i].Testing? || s.jobs[i].Reading? {
      AdvanceKeepsConnection(s, i, outcome);
    } else if s.jobs[i].AtEof? || s.jobs[i].Failed? {
      CloseKeepsConnection(s, i, outcome);
    } else {
      FinishKeepsConnection(s, i, outcome);
    }
  }

  lemma InternalKeepsConnection(s: State, a: Action)
    requires Enabled(s, a) && Internal(a)
    ensures SameConnection(s, Step(s, a))
  {
    if a.RunTask? {
      TaskKeepsConnection(s);
    } else {
      JobKeepsConnection(s, a.index, a.outcome);
    }
  }

  ghost predicate AllInternal(run: seq<Action>) {
    forall i :: 0 <= i < |run| ==> Internal(run[i])
  }

  /** What a run of internal steps can do: only so many of them, and nothing the connection decides. */
  lemma {:induction false} InternalRunIsBounded(s: State, run: seq<Action>)
    requires Inv(s) && ValidRun(s, run) && AllInternal(run)
    ensures |run| + Measure(Run(s, run)) <= Measure(s)
    ensures SameConnection(s, Run(s, run))
    decreases |run|
  {
    if run != [] {
      InternalDecreases(s, run[0]);
      InternalKeepsConnection(s, run[0]);
      StepKeepsInv(s, run[0]);
      InternalRunIsBounded(Step(s, run[0]), run[1..]);
    }
  }

  // ---- What a pause stops ----

  /** How far the reader can get while it is paused: a read it has begun may still return. */
  function PausedReach(s: State): nat {
    s.offset + if s.jobs != [] && s.jobs[0].Reading? then CHUNK_LIMIT else 0
  }

  lemma PausedJobKeepsReach(s: State, outcome: ReadOutcome)
    requires Inv(s) && s.mode.Serving? && s.paused && Enabled(s, JobStep(0, outcome))
    ensures PausedReach(DoJob(s, 0, outcome)) <= PausedReach(s)
  {
    if s.jobs[0].Exiting? {
      assert DoJob(s, 0, outcome).jobs == [];
    }
  }

  lemma PausedTaskKeepsReach(s: State)
    requires s.paused && s.queue != []
    ensures PausedReach(DoTask(s)) == PausedReach(s)
  {
  }

  lemma PausedStepKeepsReach(s: State, a: Action)
    requires Inv(s) && s.mode.Serving? && s.paused && Enabled(s, a) && Internal(a)
    ensures PausedReach(Step(s, a)) <= PausedReach(s)
  {
    if a.JobStep? {
      assert a.index == 0;
      PausedJobKeepsReach(s, a.outcome);
    } else {
      PausedTaskKeepsReach(s);
    }
  }

  /** After a pause, at most one more chunk is read before the connection resumes. */
  lemma {:induction false} PauseStopsReading(s: State, run: seq<Action>)
    requires Inv(s) && s.mode.Serving? && s.paused && ValidRun(s, run) && AllInternal(run)
    ensures Run(s, run).offset <= PausedReach(s) <= s.offset + CHUNK_LIMIT
    decreases |run|
  {
    if run != [] {
      PausedStepKeepsReach(s, run[0]);
      InternalKeepsConnection(s, run[0]);
      StepKeepsInv(s, run[0]);
      PauseStopsReading(Step(s, run[0]), run[1..]);
    }
  }

  // ---- Where the runs end ----

  lemma RunCons(s: State, a: Action, rest: seq<Action>)
    requires Enabled(s, a) && ValidRun(Step(s, a), rest)
    ensures ValidRun(s, [a] + rest) && Run(s, [a] + rest) == Run(Step(s, a), rest)
  {
  }

  lemma {:induction false} RunConcat(s: State, first: seq<Action>, then_: seq<Action>)
    requires ValidRun(s, first) && ValidRun(Run(s, first), then_)
    ensures ValidRun(s, first + then_) && Run(s, first + then_) == Run(Run(s, first), then_)
    decreases |first|
  {
    if first == [] {
      assert first + then_ == then_;
    } else {
      assert (first + then_)[1..] == first[1..] + then_;
      RunConcat(Step(s, first[0]), first[1..], then_);
      RunCons(s, first[0], first[1..] + then_);
      assert first + then_ == [first[0]] + (first[1..] + then_);
    }
  }

  lemma RunSnoc(s: State, run: seq<Action>, a: Action)
    requires ValidRun(s, run) && Enabled(Run(s, run), a)
    ensures ValidRun(s, run + [a]) && Run(s, run + [a]) == Step(Run(s, run), a)
  {
    var t := Run(s, run);
    assert [a][1..] == [];
    assert ValidRun(Step(t, a), []) && Run(Step(t, a), []) == Step(t, a);
    assert ValidRun(t, [a]) && Run(t, [a]) == Step(t, a);
    RunConcat(s, run, [a]);
  }

  lemma ReachableExtends(s: State, run: seq<Action>)
    requires Reachable(s) && ValidRun(s, run)
    ensures Reachable(Run(s, run))
  {
    var first :| ValidRun(INITIAL, first) && Run(INITIAL, first) == s;
    RunConcat(INITIAL, first, run);
  }

  ghost predicate Stuck(s: State) {
    forall a :: Internal(a) ==> !Enabled(s, a)
  }

  /** The server has no step of its own to take exactly when no job and no closure is left. */
  lemma StuckIsDrained(s: State)
    requires Reachable(s)
    ensures Stuck(s) <==> Drained(s)
  {
    ReachableInv(s);
    if Stuck(s) {
      assert !Enabled(s, RunTask);
      assert !Enabled(s, JobStep(0, ReadError));
    }
  }

  /** From every unpaused state of a file transfer, every internal run that goes on until the
      server is stuck is bounded and leaves the client with exactly one of the two endings. */
  lemma DrainDelivers(s: State, run: seq<Action>)
    requires Reachable(s) && s.mode.Serving? && !s.paused
    requires ValidRun(s, run) && AllInternal(run) && Stuck(Run(s, run))
    ensures |run| <= Measure(s)
    ensures Complete(Run(s, run)) != Aborted(Run(s, run))
  {
    ReachableInv(s);
    InternalRunIsBounded(s, run);
    ReachableExtends(s, run);
    StuckIsDrained(Run(s, run));
    QuiescentIsFinal(Run(s, run));
  }

  /** After the connection's last callback, every internal run that goes on until the server
      is stuck is bounded, and ends with the handler deleted unless it lists a directory. */
  lemma DrainDeletes(s: State, run: seq<Action>)
    requires Reachable(s) && s.terminated
    requires ValidRun(s, run) && AllInternal(run) && Stuck(Run(s, run))
    ensures |run| <= Measure(s)
    ensures Run(s, run).deletions == 1 <==> !s.mode.Listing?
  {
    ReachableInv(s);
    InternalRunIsBounded(s, run);
    ReachableExtends(s, run);
    StuckIsDrained(Run(s, run));
    DrainedIsDeleted(Run(s, run));
  }

  /** A step the server can take, never one in which a read fails. */
  function Next(s: State): Action
    requires Inv(s) && !Drained(s)
    ensures Internal(Next(s)) && Enabled(s, Next(s)) && !Fails(Next(s))
  {
    if s.queue != [] then RunTask
    else if s.mode.Serving? && s.offset < |s.mode.content| then JobStep(0, ReadSome(1))
    else JobStep(0, ReadZero)
  }

  predicate Fails(a: Action) {
    a.JobStep? && a.outcome.ReadError?
  }

  ghost predicate NoReadFails(run: seq<Action>) {
    forall i :: 0 <= i < |run| ==> !Fails(run[i])
  }

  /** The server can always drain, and without a failing read. */
  lemma {:induction false} CanDrain(s: State) returns (run: seq<Action>)
    requires Inv(s)
    ensures ValidRun(s, run) && AllInternal(run) && NoReadFails(run) && Drained(Run(s, run))
    decreases Measure(s)
  {
    if Drained(s) {
      run := [];
    } else {
      var a := Next(s);
      InternalDecreases(s, a);
      StepKeepsInv(s, a);
      var rest := CanDrain(Step(s, a));
      run := [a] + rest;
      assert run[1..] == rest;
    }
  }

  // ---- Aborts come from failing reads only ----

  ghost predicate NoAbort(s: State) {
    Abort !in Pipeline(s) && Failed !in s.jobs
  }

  lemma JobKeepsNoFailure(s: State, outcome: ReadOutcome)
    requires ControlOk(s) && Failed !in s.jobs && Enabled(s, JobStep(0, outcome)) && !outcome.ReadError?
    ensures Failed !in DoJob(s, 0, outcome).jobs && Abort !in Added(s, outcome)
  {
    assert s.jobs == [s.jobs[0]];
  }

  lemma NoAbortAdded(p: seq<Wire>, added: seq<Wire>, q: seq<Wire>)
    requires Abort !in p && Abort !in added && q == p + added
    ensures Abort !in q
  {
  }

  lemma ServingJobKeepsNoAbort(s: State, outcome: ReadOutcome)
    requires ControlOk(s) && NoAbort(s) && Enabled(s, JobStep(0, outcome)) && !outcome.ReadError?
    ensures NoAbort(DoJob(s, 0, outcome))
  {
    JobKeepsNoFailure(s, outcome);
    JobExtendsPipeline(s, outcome);
    NoAbortAdded(Pipeline(s), Added(s, outcome), Pipeline(DoJob(s, 0, outcome)));
  }

  lemma EventBaseKeepsNoAbort(s: State, a: Action)
    requires Inv(s) && NoAbort(s) && Enabled(s, a) && s.mode.Serving? && !a.JobStep?
    ensures NoAbort(Step(s, a))
  {
    EventBaseKeepsPipeline(s, a);
  }

  lemma ServingKeepsNoAbort(s: State, a: Action)
    requires Inv(s) && NoAbort(s) && Enabled(s, a) && !Fails(a) && s.mode.Serving?
    ensures NoAbort(Step(s, a))
  {
    if a.JobStep? {
      assert a.index == 0;
      ServingJobKeepsNoAbort(s, a.outcome);
    } else {
      EventBaseKeepsNoAbort(s, a);
    }
  }

  lemma RequestHasNoAbort(s: State, request: Request)
    requires FreshOk(s)
    ensures NoAbort(DoRequest(s, request))
  {
    var t := DoRequest(s, request);
    match request {
      case Directory(html) => PipelineWithJob(t, Lister(html));
      case Regular(_) => PipelineWithJob(t, Queued);
      case _ => PipelineWithoutJob(t);
    }
  }

  lemma OtherModesHaveNoAbort(s: State)
    requires Inv(s) && !s.mode.Serving?
    ensures NoAbort(s)
  {
    if s.mode.Fresh? {
      PipelineWithoutJob(s);
    }
  }

  lemma StepKeepsNoAbort(s: State, a: Action)
    requires Inv(s) && NoAbort(s) && Enabled(s, a) && !Fails(a)
    ensures NoAbort(Step(s, a))
  {
    if s.mode.Serving? {
      ServingKeepsNoAbort(s, a);
    } else if a.OnRequest? {
      RequestHasNoAbort(s, a.request);
    } else {
      StepKeepsInv(s, a);
      OtherModesHaveNoAbort(Step(s, a));
    }
  }

  lemma {:induction false} NoAbortWithoutFailure(s: State, run: seq<Action>)
    requires Inv(s) && NoAbort(s) && ValidRun(s, run) && NoReadFails(run)
    ensures NoAbort(Run(s, run))
    decreases |run|
  {
    if run != [] {
      StepKeepsNoAbort(s, run[0]);
      StepKeepsInv(s, run[0]);
      NoAbortWithoutFailure(Step(s, run[0]), run[1..]);
    }
  }

  /** Whatever the pauses, resumptions and interleavings: as long as no read fails, a transfer
      that has drained unpaused delivered the whole file and one end of message. */
  lemma WholeFileWithoutFailure(run: seq<Action>)
    requires ValidRun(INITIAL, run) && NoReadFails(run)
    requires var s := Run(INITIAL, run); s.mode.Serving? && Drained(s) && !s.paused
    ensures Complete(Run(INITIAL, run))
  {
    var s := Run(INITIAL, run);
    assert Reachable(s);
    assert Pipeline(INITIAL) == [];
    NoAbortWithoutFailure(INITIAL, run);
    QuiescentIsFinal(s);
    PipelineWithoutJob(s);
    assert QueueWires([]) == [];
    assert s.wire + [] == s.wire;
  }

  lemma ServeToTheEnd(content: seq<Byte>) returns (run: seq<Action>)
    ensures ValidRun(INITIAL, run)
    ensures var s := Run(INITIAL, run);
            s.mode == Serving(content) && Complete(s) && Drained(s) && !s.terminated
  {
    var open := OnRequest(Regular(content));
    RunSnoc(INITIAL, [], open);
    assert [] + [open] == [open];
    StepKeepsInv(INITIAL, open);
    var s := Step(INITIAL, open);
    var drain := CanDrain(s);
    InternalRunIsBounded(s, drain);
    RunConcat(INITIAL, [open], drain);
    run := [open] + drain;
    WholeFileWithoutFailure(run);
  }

  /** Every file can be served: some run delivers all of it and ends with the handler deleted. */
  lemma EveryFileCanBeServed(content: seq<Byte>) returns (run: seq<Action>)
    ensures ValidRun(INITIAL, run)
    ensures var s := Run(INITIAL, run); s.mode == Serving(content) && Complete(s) && s.deletions == 1
  {
    var serve := ServeToTheEnd(content);
    RunSnoc(INITIAL, serve, RequestComplete);
    run := serve + [RequestComplete];
    DrainedIsDeleted(Run(INITIAL, run));
  }

  /** A run that lists a directory, serves the page, ends, and leaves the handler behind. */
  lemma ListingIsLeftBehind(html: seq<Byte>) returns (run: seq<Action>)
    ensures ValidRun(INITIAL, run)
    ensures var s := Run(INITIAL, run);
            s.mode == Listing(html) && s.terminated && Drained(s) && s.deletions == 0 &&
            s.wire == [Head(200), Body(html), Eom]
  {
    var ask, list := OnRequest(Directory(html)), JobStep(0, ReadZero);
    var s1 := Step(INITIAL, ask);
    var s2 := Step(s1, list);
    var s3 := Step(s2, RunTask);
    var s4 := Step(s3, RequestComplete);
    assert ValidRun(s4, []) && Run(s4, []) == s4;
    RunCons(s3, RequestComplete, []);
    RunCons(s2, RunTask, [RequestComplete] + []);
    RunCons(s1, list, [RunTask] + ([RequestComplete] + []));
    RunCons(INITIAL, ask, [list] + ([RunTask] + ([RequestComplete] + [])));
    run := [ask] + ([list] + ([RunTask] + ([RequestComplete] + [])));
  }
}
