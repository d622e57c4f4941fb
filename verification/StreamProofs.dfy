/**
 What every run of the streaming protocol keeps, and where every run ends.
 */
module StreamProofs {
  import opened StreamProtocol

  // ---- Sequences of wire events ----

  lemma {:induction false} PayloadConcat(a: seq<Wire>, b: seq<Wire>)
    ensures Payload(a + b) == Payload(a) + Payload(b)
  {
    if a == [] {
      assert a + b == b;
    } else {
      assert (a + b)[1..] == a[1..] + b;
      PayloadConcat(a[1..], b);
    }
  }

  lemma {:induction false} QueueWiresSnoc(queue: seq<Task>, task: Task)
    ensures QueueWires(queue + [task]) == QueueWires(queue) + TaskWires(task)
  {
    if queue == [] {
      assert (queue + [task])[1..] == [];
    } else {
      assert (queue + [task])[1..] == queue[1..] + [task];
      QueueWiresSnoc(queue[1..], task);
    }
  }

  lemma PipelineWithJob(s: State, job: Job)
    requires s.jobs == [job]
    ensures Pipeline(s) == s.wire + QueueWires(s.queue) + JobWires(job)
  {
    assert JobsWires([job]) == JobWires(job) + JobsWires([]);
  }

  lemma PipelineWithoutJob(s: State)
    requires s.jobs == []
    ensures Pipeline(s) == s.wire + QueueWires(s.queue)
  {
  }

  // ---- The invariant ----

  /** Non-empty pieces of at most one buffer each. */
  ghost predicate Chunks(ws: seq<Wire>) {
    forall i :: 0 <= i < |ws| ==> ws[i].Body? && 1 <= |ws[i].bytes| <= CHUNK_LIMIT
  }

  /** The wire carries the status line, then the first `offset` bytes of the file in chunks, and
      once the file is closed either the end of the message, after all bytes, or an abort. */
  ghost predicate StreamOk(p: seq<Wire>, content: seq<Byte>, offset: nat, fileOpen: bool) {
    offset <= |content| && |p| >= 1 && p[0] == Head(200) && Payload(p) == content[..offset] &&
    if fileOpen then
      Chunks(p[1..])
    else
      |p| >= 2 && Chunks(p[1..|p| - 1]) && EndMark(p[|p| - 1], content, offset)
  }

  ghost predicate EndMark(w: Wire, content: seq<Byte>, offset: nat) {
    w == Abort || (w == Eom && offset == |content|)
  }

  /** Closures that only send. */
  ghost predicate Sends(queue: seq<Task>) {
    forall i :: 0 <= i < |queue| ==> !queue[i].Notify? && !queue[i].SendListing?
  }

  /** The flag that keeps a second reader away is up exactly while one reader exists
      or the notification of the last one is still queued, behind everything it posted. */
  ghost predicate ReaderOk(jobs: seq<Job>, queue: seq<Task>, scheduled: bool) {
    if jobs != [] then
      |jobs| == 1 && scheduled && Sends(queue)
    else if scheduled then
      queue != [] && queue[|queue| - 1].Notify? && Sends(queue[..|queue| - 1])
    else
      queue == []
  }

  /** While a reader is inside the loop body the file is open; past it, it is closed or paused. */
  ghost predicate PhaseOk(s: State) {
    s.jobs != [] ==>
      match s.jobs[0]
      case Queued => true
      case Testing => true
      case Reading => s.fileOpen
      case HasChunk(_) => s.fileOpen
      case AtEof => s.fileOpen && s.mode.Serving? && s.offset == |s.mode.content|
      case Failed => s.fileOpen
      case EofClosed => !s.fileOpen
      case ErrorClosed => !s.fileOpen
      case Exiting => true
      case Lister(_) => false
  }

  /** The flags, the one reader and its phase agree. */
  ghost predicate ControlOk(s: State) {
    && s.mode.Serving?
    && ReaderOk(s.jobs, s.queue, s.scheduled)
    && PhaseOk(s)
    && (s.terminated ==> s.paused)
    && s.finished == s.terminated
    && (s.fileOpen && !s.paused ==> s.scheduled)
    && s.deletions == (if s.terminated && !s.scheduled then 1 else 0)
  }

  ghost predicate ServingOk(s: State) {
    && ControlOk(s)
    && StreamOk(Pipeline(s), s.mode.content, s.offset, s.fileOpen)
  }

  ghost predicate RejectedOk(s: State) {
    && Drained(s) && !s.fileOpen && !s.scheduled
    && (s.wire == [Reply(400)] || s.wire == [Reply(404)])
    && s.finished == s.terminated
    && s.deletions == (if s.terminated then 1 else 0)
  }

  ghost predicate ListingOk(s: State)
    requires s.mode.Listing?
  {
    && s.fileOpen && s.scheduled && s.deletions == 0
    && Pipeline(s) == [Head(200), Body(s.mode.html), Eom]
    && ((s.jobs == [Lister(s.mode.html)] && s.queue == [])
        || (s.jobs == [] && s.queue == [SendListing(s.mode.html)])
        || Drained(s))
    && s.finished == (s.terminated || Drained(s))
  }

  /** Before the request there is nothing but the flags that callbacks set. */
  ghost predicate FreshOk(s: State) {
    s == INITIAL.(paused := s.paused, finished := s.terminated, terminated := s.terminated,
                  deletions := if s.terminated then 1 else 0)
  }

  ghost predicate Inv(s: State) {
    && (s.terminated ==> s.paused)
    && match s.mode
       case Fresh => FreshOk(s)
       case Rejected => RejectedOk(s)
       case Listing(_) => ListingOk(s)
       case Serving(_) => ServingOk(s)
  }

  // ---- Control: the flags and the single reader ----

  lemma CallbackKeepsControl(s: State, a: Action)
    requires ControlOk(s) && Enabled(s, a) && !Internal(a)
    ensures ControlOk(Step(s, a))
  {
  }

  lemma SendKeepsReader(jobs: seq<Job>, queue: seq<Task>, scheduled: bool)
    requires ReaderOk(jobs, queue, scheduled) && queue != [] && !queue[0].Notify?
    ensures ReaderOk(jobs, queue[1..], scheduled) && !queue[0].SendListing?
  {
  }

  lemma SendKeepsControl(s: State)
    requires ControlOk(s) && s.queue != [] && !s.queue[0].Notify?
    ensures ControlOk(DoTask(s))
  {
    SendKeepsReader(s.jobs, s.queue, s.scheduled);
  }

  lemma NotifyKeepsControl(s: State)
    requires ControlOk(s) && s.queue != [] && s.queue[0].Notify?
    ensures ControlOk(DoTask(s))
  {
  }

  lemma ExitKeepsControl(s: State, outcome: ReadOutcome)
    requires ControlOk(s) && s.jobs == [Exiting]
    ensures ControlOk(DoJob(s, 0, outcome))
  {
  }

  lemma MoveKeepsControl(s: State, outcome: ReadOutcome)
    requires ControlOk(s) && Enabled(s, JobStep(0, outcome)) && !s.jobs[0].Exiting?
    ensures ControlOk(DoJob(s, 0, outcome))
  {
    var t := DoJob(s, 0, outcome);
    assert |t.jobs| == 1;
    assert ReaderOk(t.jobs, t.queue, t.scheduled);
  }

  lemma StepKeepsControl(s: State, a: Action)
    requires ControlOk(s) && Enabled(s, a)
    ensures ControlOk(Step(s, a))
  {
    if a.RunTask? {
      if s.queue[0].Notify? {
        NotifyKeepsControl(s);
      } else {
        SendKeepsControl(s);
      }
    } else if a.JobStep? {
      assert a.index == 0;
      if s.jobs[0].Exiting? {
        assert s.jobs == [Exiting];
        ExitKeepsControl(s, a.outcome);
      } else {
        MoveKeepsControl(s, a.outcome);
      }
    } else {
      CallbackKeepsControl(s, a);
    }
  }

  // ---- The stream: what each step does to the pipeline ----

  lemma ResumeKeepsPipeline(s: State)
    requires s.scheduled || s.jobs == []
    ensures Pipeline(DoResume(s)) == Pipeline(s)
  {
    if !s.scheduled && s.fileOpen {
      PipelineWithJob(DoResume(s), Queued);
      PipelineWithoutJob(s);
    }
  }

  lemma CallbackKeepsPipeline(s: State, a: Action)
    requires ControlOk(s) && Enabled(s, a) && !Internal(a)
    ensures Pipeline(Step(s, a)) == Pipeline(s)
  {
    if a.OnEgressResumed? {
      ResumeKeepsPipeline(s);
    }
  }

  lemma TaskKeepsPipeline(s: State)
    requires s.queue != [] && (s.queue[0].Notify? ==> s.jobs == [])
    ensures Pipeline(DoTask(s)) == Pipeline(s)
  {
    var t := s.(queue := s.queue[1..], wire := s.wire + TaskWires(s.queue[0]));
    assert Pipeline(t) == Pipeline(s) by {
      assert QueueWires(s.queue) == TaskWires(s.queue[0]) + QueueWires(t.queue);
      assert s.wire + (TaskWires(s.queue[0]) + QueueWires(t.queue)) == t.wire + QueueWires(t.queue);
    }
    if s.queue[0].Notify? {
      assert t.wire == s.wire;
      ResumeKeepsPipeline(t.(scheduled := false));
    }
  }

  /** What a job step adds to the pipeline: the bytes just read, or the mark of the file's end. */
  function Added(s: State, outcome: ReadOutcome): seq<Wire>
    requires s.jobs != [] && Enabled(s, JobStep(0, outcome))
  {
    match s.jobs[0]
    case Reading =>
      if outcome.ReadSome? then [Body(s.mode.content[s.offset..s.offset + outcome.count])] else []
    case AtEof => [Eom]
    case Failed => [Abort]
    case _ => []
  }

  lemma PostExtendsPipeline(s: State, t: State, job: Job, task: Task)
    requires s.jobs == [job] && t.wire == s.wire && t.queue == s.queue + [task]
    requires t.jobs == [] || |t.jobs| == 1
    requires TaskWires(task) + (if t.jobs == [] then [] else JobWires(t.jobs[0])) == JobWires(job)
    ensures Pipeline(t) == Pipeline(s)
  {
    PipelineWithJob(s, job);
    QueueWiresSnoc(s.queue, task);
    if t.jobs == [] {
      PipelineWithoutJob(t);
    } else {
      PipelineWithJob(t, t.jobs[0]);
    }
  }

  lemma MoveExtendsPipeline(s: State, t: State, job: Job, next: Job)
    requires s.jobs == [job] && t.jobs == [next] && t.wire == s.wire && t.queue == s.queue && JobWires(job) == []
    ensures Pipeline(t) == Pipeline(s) + JobWires(next)
  {
    PipelineWithJob(s, job);
    PipelineWithJob(t, next);
  }

  lemma MovingJobExtendsPipeline(s: State, outcome: ReadOutcome)
    requires |s.jobs| == 1 && Enabled(s, JobStep(0, outcome))
    requires s.jobs[0].Queued? || s.jobs[0].Testing? || s.jobs[0].Reading?
    ensures Pipeline(DoJob(s, 0, outcome)) == Pipeline(s) + Added(s, outcome)
  {
    var t := DoJob(s, 0, outcome);
    MoveExtendsPipeline(s, t, s.jobs[0], t.jobs[0]);
  }

  lemma ClosingJobExtendsPipeline(s: State, outcome: ReadOutcome)
    requires |s.jobs| == 1 && (s.jobs[0].AtEof? || s.jobs[0].Failed?)
    ensures Pipeline(DoJob(s, 0, outcome)) == Pipeline(s) + Added(s, outcome)
  {
    var t := DoJob(s, 0, outcome);
    MoveExtendsPipeline(s, t, s.jobs[0], t.jobs[0]);
  }

  lemma PostingJobExtendsPipeline(s: State, outcome: ReadOutcome)
    requires |s.jobs| == 1
    requires s.jobs[0].HasChunk? || s.jobs[0].EofClosed? || s.jobs[0].ErrorClosed?
    ensures Pipeline(DoJob(s, 0, outcome)) == Pipeline(s)
  {
    var t := DoJob(s, 0, outcome);
    PostExtendsPipeline(s, t, s.jobs[0], t.queue[|s.queue|]);
  }

  lemma EndingJobExtendsPipeline(s: State, outcome: ReadOutcome)
    requires |s.jobs| == 1 && (s.jobs[0].Exiting? || s.jobs[0].Lister?)
    ensures Pipeline(DoJob(s, 0, outcome)) == Pipeline(s)
  {
    var t := DoJob(s, 0, outcome);
    assert t.jobs == [];
    PostExtendsPipeline(s, t, s.jobs[0], t.queue[|s.queue|]);
  }

  lemma JobExtendsPipeline(s: State, outcome: ReadOutcome)
    requires |s.jobs| == 1 && Enabled(s, JobStep(0, outcome))
    ensures Pipeline(DoJob(s, 0, outcome)) == Pipeline(s) + Added(s, outcome)
  {
    match s.jobs[0] {
      case HasChunk(_) | EofClosed | ErrorClosed =>
        PostingJobExtendsPipeline(s, outcome);
        assert Pipeline(s) + [] == Pipeline(s);
      case Exiting | Lister(_) =>
        EndingJobExtendsPipeline(s, outcome);
        assert Pipeline(s) + [] == Pipeline(s);
      case AtEof | Failed =>
        ClosingJobExtendsPipeline(s, outcome);
      case Queued | Testing | Reading =>
        MovingJobExtendsPipeline(s, outcome);
    }
  }

  lemma ReadExtendsStream(p: seq<Wire>, content: seq<Byte>, offset: nat, n: nat)
    requires StreamOk(p, content, offset, true) && 1 <= n <= CHUNK_LIMIT && offset + n <= |content|
    ensures StreamOk(p + [Body(content[offset..offset + n])], content, offset + n, true)
  {
    var w := Body(content[offset..offset + n]);
    PayloadConcat(p, [w]);
    assert Payload([w]) == w.bytes + Payload([]);
    assert content[..offset] + content[offset..offset + n] == content[..offset + n];
    assert (p + [w])[1..] == p[1..] + [w];
  }

  lemma CloseEndsStream(p: seq<Wire>, content: seq<Byte>, offset: nat, w: Wire)
    requires StreamOk(p, content, offset, true) && EndMark(w, content, offset)
    ensures StreamOk(p + [w], content, offset, false)
  {
    PayloadConcat(p, [w]);
    assert Payload([w]) == [] + Payload([]);
    assert (p + [w])[1..|p|] == p[1..];
  }

  ghost predicate StreamOf(s: State) {
    s.mode.Serving? && StreamOk(Pipeline(s), s.mode.content, s.offset, s.fileOpen)
  }

  /** Callbacks and closures move events along the pipeline, and leave the file alone. */
  lemma EventBaseKeepsPipeline(s: State, a: Action)
    requires ControlOk(s) && Enabled(s, a) && !a.JobStep?
    ensures var t := Step(s, a);
            Pipeline(t) == Pipeline(s) && t.mode == s.mode && t.offset == s.offset && t.fileOpen == s.fileOpen
  {
    if a.RunTask? {
      TaskKeepsPipeline(s);
    } else {
      CallbackKeepsPipeline(s, a);
    }
  }

  lemma SamePipeline(s: State, t: State)
    requires StreamOf(s)
    requires Pipeline(t) == Pipeline(s) && t.mode == s.mode && t.offset == s.offset && t.fileOpen == s.fileOpen
    ensures StreamOf(t)
  {
  }

  lemma ReadKeepsStream(s: State, outcome: ReadOutcome)
    requires ControlOk(s) && StreamOf(s) && s.jobs == [Reading] && LegalRead(s, outcome)
    ensures StreamOf(DoRead(s, 0, outcome))
  {
    JobExtendsPipeline(s, outcome);
    if outcome.ReadSome? {
      ReadExtendsStream(Pipeline(s), s.mode.content, s.offset, outcome.count);
    } else {
      assert Pipeline(s) + [] == Pipeline(s);
      SamePipeline(s, DoRead(s, 0, outcome));
    }
  }

  lemma CloseKeepsStream(s: State, outcome: ReadOutcome)
    requires ControlOk(s) && StreamOf(s) && (s.jobs == [AtEof] || s.jobs == [Failed])
    ensures StreamOf(DoJob(s, 0, outcome))
  {
    JobExtendsPipeline(s, outcome);
    CloseEndsStream(Pipeline(s), s.mode.content, s.offset, if s.jobs[0].AtEof? then Eom else Abort);
  }

  lemma MoveKeepsStream(s: State, outcome: ReadOutcome)
    requires StreamOf(s) && (s.jobs == [Queued] || s.jobs == [Testing])
    ensures StreamOf(DoJob(s, 0, outcome))
  {
  }

  lemma PostKeepsStream(s: State, outcome: ReadOutcome)
    requires StreamOf(s) && |s.jobs| == 1
    requires s.jobs[0].HasChunk? || s.jobs[0].EofClosed? || s.jobs[0].ErrorClosed? || s.jobs[0].Exiting?
    ensures StreamOf(DoJob(s, 0, outcome))
  {
    JobExtendsPipeline(s, outcome);
    assert Pipeline(s) + [] == Pipeline(s);
    SamePipeline(s, DoJob(s, 0, outcome));
  }

  lemma JobKeepsStream(s: State, outcome: ReadOutcome)
    requires ControlOk(s) && StreamOf(s) && Enabled(s, JobStep(0, outcome))
    ensures StreamOf(DoJob(s, 0, outcome))
  {
    assert s.jobs == [s.jobs[0]];
    match s.jobs[0] {
      case Reading => ReadKeepsStream(s, outcome);
      case AtEof | Failed => CloseKeepsStream(s, outcome);
      case Queued | Testing => MoveKeepsStream(s, outcome);
      case HasChunk(_) | EofClosed | ErrorClosed | Exiting => PostKeepsStream(s, outcome);
    }
  }

  lemma StepKeepsStream(s: State, a: Action)
    requires ControlOk(s) && StreamOf(s) && Enabled(s, a)
    ensures StreamOf(Step(s, a))
  {
    if a.JobStep? {
      assert a.index == 0;
      JobKeepsStream(s, a.outcome);
    } else {
      EventBaseKeepsPipeline(s, a);
      SamePipeline(s, Step(s, a));
    }
  }

  // ---- The other modes, and every run ----

  lemma RequestKeepsInv(s: State, request: Request)
    requires FreshOk(s) && !s.terminated
    ensures Inv(DoRequest(s, request))
  {
    var t := DoRequest(s, request);
    match request {
      case NotGet =>
      case Missing =>
      case Directory(html) =>
        PipelineWithJob(t, Lister(html));
        assert QueueWires([]) == [];
        assert Pipeline(t) == [Head(200), Body(html), Eom];
      case Regular(bytes) =>
        PipelineWithJob(t, Queued);
        assert Pipeline(t) == [Head(200)];
        assert Payload([Head(200)]) == [] + Payload([]);
    }
  }

  lemma StepKeepsListing(s: State, a: Action)
    requires s.mode.Listing? && ListingOk(s) && Enabled(s, a)
    ensures var t := Step(s, a); t.mode == s.mode && ListingOk(t)
  {
    if a.RunTask? {
      TaskKeepsPipeline(s);
    } else if a.JobStep? {
      var job := Lister(s.mode.html);
      assert a.index == 0 && s.queue == [] && s.jobs == [job];
      JobExtendsPipeline(s, a.outcome);
      assert DoJob(s, 0, a.outcome).queue == [SendListing(s.mode.html)];
      assert Pipeline(s) + [] == Pipeline(s);
    }
  }

  /** Every action keeps the invariant. */
  lemma StepKeepsInv(s: State, a: Action)
    requires Inv(s) && Enabled(s, a)
    ensures Inv(Step(s, a))
  {
    match s.mode {
      case Fresh =>
        if a.OnRequest? {
          RequestKeepsInv(s, a.request);
        }
      case Rejected =>
      case Listing(_) => StepKeepsListing(s, a);
      case Serving(_) =>
        StepKeepsControl(s, a);
        StepKeepsStream(s, a);
    }
  }

  lemma {:induction false} RunKeepsInv(s: State, run: seq<Action>)
    requires Inv(s) && ValidRun(s, run)
    ensures Inv(Run(s, run))
    decreases |run|
  {
    if run != [] {
      StepKeepsInv(s, run[0]);
      RunKeepsInv(Step(s, run[0]), run[1..]);
    }
  }

  lemma ReachableInv(s: State)
    requires Reachable(s)
    ensures Inv(s)
  {
    var run :| ValidRun(INITIAL, run) && Run(INITIAL, run) == s;
    RunKeepsInv(INITIAL, run);
  }
}
