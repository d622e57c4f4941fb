/**
 What the connection's callbacks mean for a transfer: requests decide what is sent, pauses
 stop it, and resumptions set it going again whatever the reader is doing.
 */
module StreamCallbacks {
  import opened StreamProtocol
  import opened StreamProofs
  import opened StreamTheorems

  // ---- Pause and resume ----

  predicate EndsConnection(a: Action) {
    a.RequestComplete? || a.OnError?
  }

  ghost predicate StillConnected(run: seq<Action>) {
    forall i :: 0 <= i < |run| ==> !EndsConnection(run[i])
  }

  ghost predicate IsLastPause(run: seq<Action>, i: nat) {
    i < |run| && run[i] == OnEgressPaused && forall j :: i < j < |run| ==> run[j] != OnEgressResumed
  }

  /** Of the pauses and resumptions in the run the last one is a pause. */
  ghost predicate PauseIsLast(run: seq<Action>) {
    exists i :: IsLastPause(run, i)
  }

  ghost predicate NeverResumes(run: seq<Action>) {
    forall i :: 0 <= i < |run| ==> run[i] != OnEgressResumed
  }

  /** Only the connection's own pauses and resumptions move the flag. */
  lemma StepSetsPause(s: State, a: Action)
    requires Enabled(s, a) && !EndsConnection(a)
    ensures Step(s, a).paused <==> a == OnEgressPaused || (s.paused && a != OnEgressResumed)
  {
    if Internal(a) {
      InternalKeepsConnection(s, a);
    }
  }

  lemma NeverResumesCons(run: seq<Action>)
    requires run != []
    ensures NeverResumes(run) <==> run[0] != OnEgressResumed && NeverResumes(run[1..])
  {
    assert forall j :: 0 < j < |run| ==> run[j] == run[1..][j - 1];
  }

  lemma LastPauseShifts(run: seq<Action>, i: nat)
    requires run != []
    ensures IsLastPause(run, i + 1) <==> IsLastPause(run[1..], i)
  {
    assert forall j :: 0 < j < |run| ==> run[j] == run[1..][j - 1];
    assert forall j :: 0 <= j < |run| - 1 ==> run[1..][j] == run[j + 1];
  }

  lemma PauseIsLastCons(run: seq<Action>)
    requires run != []
    ensures PauseIsLast(run) <==> PauseIsLast(run[1..]) || (run[0] == OnEgressPaused && NeverResumes(run[1..]))
  {
    if i: nat :| IsLastPause(run[1..], i) {
      LastPauseShifts(run, i);
    }
    if i: nat :| IsLastPause(run, i) && i > 0 {
      LastPauseShifts(run, i - 1);
    }
    NeverResumesCons(run);
    assert IsLastPause(run, 0) <==> run[0] == OnEgressPaused && NeverResumes(run[1..]) by {
      assert forall j :: 0 < j < |run| ==> run[j] == run[1..][j - 1];
      assert forall j :: 0 <= j < |run| - 1 ==> run[1..][j] == run[j + 1];
    }
  }

  lemma {:induction false} RunSetsPause(s: State, run: seq<Action>)
    requires ValidRun(s, run) && StillConnected(run)
    ensures Run(s, run).paused <==> PauseIsLast(run) || (s.paused && NeverResumes(run))
    decreases |run|
  {
    if run != [] {
      StepSetsPause(s, run[0]);
      RunSetsPause(Step(s, run[0]), run[1..]);
      PauseIsLastCons(run);
      NeverResumesCons(run);
    }
  }

  /** Over every run in which the connection has not ended: the handler is paused
      if and only if the last thing it heard of the two is a pause. */
  lemma PausedIff(run: seq<Action>)
    requires ValidRun(INITIAL, run) && StillConnected(run)
    ensures Run(INITIAL, run).paused <==> PauseIsLast(run)
  {
    RunSetsPause(INITIAL, run);
  }

  lemma AfterStep(s: State, a: Action)
    requires Reachable(s) && Enabled(s, a)
    ensures Reachable(Step(s, a))
  {
    var first :| ValidRun(INITIAL, first) && Run(INITIAL, first) == s;
    RunSnoc(INITIAL, first, a);
  }

  lemma CallbackKeepsTransfer(s: State, a: Action)
    requires Enabled(s, a) && (a == OnEgressPaused || a == OnEgressResumed)
    ensures var t := Step(s, a);
            t.mode == s.mode && t.offset == s.offset && t.terminated == s.terminated && t.wire == s.wire
  {
  }

  /** Whatever the reader is doing when the connection resumes: every internal run from there that goes
      on until the server is stuck is bounded and leaves the client with exactly one of the two endings. */
  lemma ResumeDelivers(s: State, run: seq<Action>)
    requires Reachable(s) && s.mode.Serving? && !s.terminated
    requires var t := Step(s, OnEgressResumed); ValidRun(t, run) && AllInternal(run) && Stuck(Run(t, run))
    ensures var t := Step(s, OnEgressResumed); |run| <= Measure(t) && Complete(Run(t, run)) != Aborted(Run(t, run))
  {
    StepSetsPause(s, OnEgressResumed);
    CallbackKeepsTransfer(s, OnEgressResumed);
    AfterStep(s, OnEgressResumed);
    DrainDelivers(Step(s, OnEgressResumed), run);
  }

  /** From the moment the connection pauses, the reader takes at most one more chunk from the file,
      and none at all if it was not reading just then. */
  lemma PauseHolds(s: State, run: seq<Action>)
    requires Reachable(s) && s.mode.Serving? && !s.terminated
    requires ValidRun(Step(s, OnEgressPaused), run) && AllInternal(run)
    ensures s.offset <= Run(Step(s, OnEgressPaused), run).offset <= s.offset + CHUNK_LIMIT
    ensures Reading !in s.jobs ==> Run(Step(s, OnEgressPaused), run).offset == s.offset
  {
    var t := Step(s, OnEgressPaused);
    StepSetsPause(s, OnEgressPaused);
    CallbackKeepsTransfer(s, OnEgressPaused);
    AfterStep(s, OnEgressPaused);
    ReachableInv(t);
    PauseStopsReading(t, run);
    RunKeepsOffset(t, run);
    assert t.jobs == s.jobs;
  }

  lemma TaskKeepsOffset(s: State)
    requires s.queue != []
    ensures DoTask(s).offset == s.offset
  {
  }

  lemma ReaderKeepsOffset(s: State, i: nat, outcome: ReadOutcome)
    requires Enabled(s, JobStep(i, outcome)) && (s.jobs[i].Queued? || s.jobs[i].Testing? || s.jobs[i].Reading?)
    ensures s.offset <= DoJob(s, i, outcome).offset
  {
  }

  lemma CloserKeepsOffset(s: State, i: nat, outcome: ReadOutcome)
    requires i < |s.jobs| && (s.jobs[i].AtEof? || s.jobs[i].Failed?)
    ensures s.offset == DoJob(s, i, outcome).offset
  {
  }

  lemma PosterKeepsOffset(s: State, i: nat, outcome: ReadOutcome)
    requires i < |s.jobs| && !s.jobs[i].Queued? && !s.jobs[i].Testing? && !s.jobs[i].Reading?
    requires !s.jobs[i].AtEof? && !s.jobs[i].Failed?
    ensures s.offset == DoJob(s, i, outcome).offset
  {
  }

  lemma JobKeepsOffset(s: State, i: nat, outcome: ReadOutcome)
    requires Enabled(s, JobStep(i, outcome))
    ensures s.offset <= DoJob(s, i, outcome).offset
  {
    if s.jobs[i].Queued? || s.jobs[i].Testing? || s.jobs[i].Reading? {
      ReaderKeepsOffset(s, i, outcome);
    } else if s.jobs[i].AtEof? || s.jobs[i].Failed? {
      CloserKeepsOffset(s, i, outcome);
    } else {
      PosterKeepsOffset(s, i, outcome);
    }
  }

  lemma StepKeepsOffset(s: State, a: Action)
    requires Enabled(s, a) && Internal(a)
    ensures s.offset <= Step(s, a).offset
  {
    if a.RunTask? {
      TaskKeepsOffset(s);
    } else {
      JobKeepsOffset(s, a.index, a.outcome);
    }
  }

  lemma {:induction false} RunKeepsOffset(s: State, run: seq<Action>)
    requires ValidRun(s, run) && AllInternal(run)
    ensures s.offset <= Run(s, run).offset
    decreases |run|
  {
    if run != [] {
      StepKeepsOffset(s, run[0]);
      RunKeepsOffset(Step(s, run[0]), run[1..]);
    }
  }

  // ---- Requests ----

  /** What a request decides: the error replies are all there is to send, and nothing changes it later. */
  ghost predicate Answers(s: State, request: Request) {
    match request
    case NotGet => s.mode == Rejected && s.wire == [Reply(400)]
    case Missing => s.mode == Rejected && s.wire == [Reply(404)]
    case Directory(html) => s.mode == Listing(html) && [Head(200)] <= s.wire
    case Regular(bytes) => s.mode == Serving(bytes) && [Head(200)] <= s.wire
  }

  lemma RequestAnswers(s: State, request: Request)
    requires FreshOk(s) && Enabled(s, OnRequest(request))
    ensures Answers(Step(s, OnRequest(request)), request)
  {
  }

  lemma NotifyKeepsWire(s: State)
    ensures DoNotify(s).wire == s.wire
  {
  }

  lemma SendExtendsWire(s: State)
    requires s.queue != [] && !s.queue[0].Notify?
    ensures DoTask(s).wire == s.wire + TaskWires(s.queue[0])
  {
    match s.queue[0] {
      case SendChunk(_) =>
      case SendEom =>
      case SendAbort =>
      case SendListing(_) =>
    }
  }

  lemma TaskExtendsWire(s: State)
    requires s.queue != []
    ensures s.wire <= DoTask(s).wire
  {
    if s.queue[0].Notify? {
      NotifyKeepsWire(s.(queue := s.queue[1..]));
    } else {
      SendExtendsWire(s);
    }
  }

  lemma StepExtendsWire(s: State, a: Action)
    requires Enabled(s, a) && !a.OnRequest?
    ensures s.mode == Step(s, a).mode && s.wire <= Step(s, a).wire
    ensures s.wire != Step(s, a).wire ==> s.queue != []
  {
    if a.JobStep? {
      JobKeepsConnection(s, a.index, a.outcome);
    } else if a.RunTask? {
      TaskKeepsConnection(s);
      TaskExtendsWire(s);
    }
  }

  lemma StepKeepsAnswer(s: State, a: Action, request: Request)
    requires Inv(s) && Enabled(s, a) && Answers(s, request)
    ensures Answers(Step(s, a), request)
  {
    StepExtendsWire(s, a);
  }

  lemma {:induction false} RunKeepsAnswer(s: State, run: seq<Action>, request: Request)
    requires Inv(s) && ValidRun(s, run) && Answers(s, request)
    ensures Answers(Run(s, run), request)
    decreases |run|
  {
    if run != [] {
      StepKeepsAnswer(s, run[0], request);
      StepKeepsInv(s, run[0]);
      RunKeepsAnswer(Step(s, run[0]), run[1..], request);
    }
  }

  lemma {:induction false} RunFromAnswers(s: State, run: seq<Action>, i: nat)
    requires Inv(s) && ValidRun(s, run) && i < |run| && run[i].OnRequest?
    ensures Answers(Run(s, run), run[i].request)
    decreases |run|
  {
    StepKeepsInv(s, run[0]);
    if i == 0 {
      RequestAnswers(s, run[0].request);
      RunKeepsAnswer(Step(s, run[0]), run[1..], run[0].request);
    } else {
      RunFromAnswers(Step(s, run[0]), run[1..], i - 1);
    }
  }

  /** Over every run, the request in it decides the outcome: 400, 404, this page or this file. */
  lemma RequestDecides(run: seq<Action>, i: nat)
    requires ValidRun(INITIAL, run) && i < |run| && run[i].OnRequest?
    ensures Answers(Run(INITIAL, run), run[i].request)
  {
    RunFromAnswers(INITIAL, run, i);
  }

  /** A listing that has drained has sent its page, once, between head and end, and nothing else. */
  lemma ListingDelivers(s: State)
    requires Reachable(s) && s.mode.Listing? && Drained(s)
    ensures s.wire == [Head(200), Body(s.mode.html), Eom]
  {
    ReachableInv(s);
    PipelineWithoutJob(s);
    assert QueueWires([]) == [] && s.wire + [] == s.wire;
  }
}
