/**
 Writers never get stuck: whatever the others have begun, all of them can commit.
 */
module TransactionProgress {
  import opened Keys
  import opened Store
  import opened StoreInvariant
  import opened Transactions
  import opened TransactionProofs
  import opened TransactionTheorems

  predicate AtWork(phase: Phase) {
    phase == Begun || Holding(phase)
  }

  function Working(s: State): set<nat> {
    set t | t in s.txns && AtWork(s.txns[t].phase)
  }

  /** The steps of a transaction that go well. */
  predicate Succeeds(a: Action) {
    (a.GetForUpdate? || a.PutObject? || a.PutIndex? || a.Commit?) && a.ok
  }

  ghost predicate AllSucceed(run: seq<Action>) {
    forall i :: 0 <= i < |run| ==> Succeeds(run[i])
  }

  /** The counters can take one more step for each transaction at work. */
  ghost predicate HasRoom(s: State) {
    forall t :: t in Working(s) && s.txns[t].path in s.db.counters ==>
      Count(s.db, s.txns[t].path) + |Working(s)| <= INT_MAX
  }

  lemma {:induction false} RunConcat(s: State, first: seq<Action>, rest: seq<Action>)
    requires ValidRun(s, first) && ValidRun(Run(s, first), rest)
    ensures ValidRun(s, first + rest) && Run(s, first + rest) == Run(Run(s, first), rest)
    decreases |first|
  {
    if first == [] {
      assert first + rest == rest;
    } else {
      assert (first + rest)[1..] == first[1..] + rest;
      RunConcat(Step(s, first[0]), first[1..], rest);
      FirstStep(s, first[0], first[1..] + rest);
      assert first + rest == [first[0]] + (first[1..] + rest);
    }
  }

  /** Only one transaction has moved, and the store with it if it has committed. */
  ghost predicate OnlyMoved(s: State, r: State, t: nat) {
    && t in s.txns && r.txns.Keys == s.txns.Keys && r.txns[t].path == s.txns[t].path
    && (forall u :: u in s.txns && u != t ==> r.txns[u] == s.txns[u])
    && r.db.counters.Keys == s.db.counters.Keys
    && (forall e :: e in s.db.counters && e != s.txns[t].path ==> r.db.counters[e] == s.db.counters[e])
    && (s.txns[t].path in s.db.counters ==> Count(r.db, s.txns[t].path) <= Count(s.db, s.txns[t].path) + 1)
  }

  function PhaseLeft(phase: Phase): nat {
    match phase
    case Counted => 3
    case Stored => 2
    case Indexed => 1
    case _ => 0
  }

  /** A step short of the commit. */
  lemma TentativeMoves(s: State, a: Action)
    requires Enabled(s, a) && Succeeds(a) && !a.Commit?
    ensures var r := Step(s, a);
            r.db == s.db && OnlyMoved(s, r, a.t) && Holding(r.txns[a.t].phase) &&
            (Holding(s.txns[a.t].phase) ==> PhaseLeft(r.txns[a.t].phase) < PhaseLeft(s.txns[a.t].phase))
  {
  }

  lemma CommitMoves(s: State, t: nat)
    requires t in s.txns && s.txns[t].phase == Indexed && TxnOk(s.db, s.locks, t, s.txns[t])
    ensures var r := DoCommit(s, t); OnlyMoved(s, r, t) && r.txns[t].phase == Committed
  {
    CommitSetsCounter(s, t);
    AtoiToString(s.txns[t].id + 1);
  }

  lemma HolderKeepsLocks(s: State, t: nat)
    requires LocksOk(s) && t in s.txns && Holding(s.txns[t].phase)
    ensures var a := NextStep(t, s.txns[t].phase); Enabled(s, a) && LocksOk(Step(s, a))
    ensures TxnOk(s.db, s.locks, t, s.txns[t])
  {
    HolderGoesOn(s, t);
    StepKeepsLocks(s, NextStep(t, s.txns[t].phase));
  }

  lemma HolderMoves(s: State, t: nat, a: Action)
    requires LocksOk(s) && t in s.txns && Holding(s.txns[t].phase) && s.txns[t].phase != Indexed
    requires a == NextStep(t, s.txns[t].phase)
    ensures Enabled(s, a) && Succeeds(a)
    ensures var r := Step(s, a);
            LocksOk(r) && r.db == s.db && OnlyMoved(s, r, t) &&
            Holding(r.txns[t].phase) && PhaseLeft(r.txns[t].phase) < PhaseLeft(s.txns[t].phase)
  {
    HolderKeepsLocks(s, t);
    TentativeMoves(s, a);
  }

  /** A run of steps that all go well, by which one transaction commits and no other moves. */
  ghost predicate CommitsBy(s: State, t: nat, run: seq<Action>) {
    ValidRun(s, run) && AllSucceed(run) &&
    var r := Run(s, run); LocksOk(r) && OnlyMoved(s, r, t) && r.txns[t].phase == Committed
  }

  lemma OnlyMovedAfter(s: State, next: State, r: State, t: nat)
    requires OnlyMoved(s, next, t) && next.db == s.db && OnlyMoved(next, r, t)
    ensures OnlyMoved(s, r, t)
  {
  }

  lemma AllSucceedCons(a: Action, rest: seq<Action>)
    requires Succeeds(a) && AllSucceed(rest)
    ensures AllSucceed([a] + rest)
  {
  }

  lemma StepFirst(s: State, a: Action, t: nat, rest: seq<Action>)
    requires Enabled(s, a) && Succeeds(a) && OnlyMoved(s, Step(s, a), t) && Step(s, a).db == s.db
    requires CommitsBy(Step(s, a), t, rest)
    ensures CommitsBy(s, t, [a] + rest)
  {
    FirstStep(s, a, rest);
    AllSucceedCons(a, rest);
    OnlyMovedAfter(s, Step(s, a), Run(Step(s, a), rest), t);
  }

  lemma OneStepCommits(s: State, t: nat, a: Action)
    requires a == Action.Commit(t, true) && Enabled(s, a) && LocksOk(Step(s, a)) && OnlyMoved(s, Step(s, a), t)
    requires Step(s, a).txns[t].phase == Committed
    ensures CommitsBy(s, t, [a])
  {
    LastStep(s, a);
  }

  lemma CommitLast(s: State, t: nat)
    requires LocksOk(s) && t in s.txns && s.txns[t].phase == Indexed
    ensures CommitsBy(s, t, [Action.Commit(t, true)])
  {
    HolderKeepsLocks(s, t);
    CommitMoves(s, t);
    OneStepCommits(s, t, Action.Commit(t, true));
  }

  /** A transaction that holds its counter can commit at once. */
  lemma {:induction false} HolderCanCommit(s: State, t: nat) returns (run: seq<Action>)
    requires LocksOk(s) && t in s.txns && Holding(s.txns[t].phase)
    ensures CommitsBy(s, t, run)
    decreases PhaseLeft(s.txns[t].phase)
  {
    if s.txns[t].phase == Indexed {
      run := [Action.Commit(t, true)];
      CommitLast(s, t);
    } else {
      var a := NextStep(t, s.txns[t].phase);
      HolderMoves(s, t, a);
      var rest := HolderCanCommit(Step(s, a), t);
      StepFirst(s, a, t, rest);
      run := [a] + rest;
    }
  }

  /** When nobody holds a counter, anybody can take one. */
  lemma AnyoneCanStart(s: State, t: nat)
    requires LocksOk(s) && t in s.txns && s.txns[t].phase == Begun && CanCount(s.db, s.txns[t].path)
    requires forall u :: u in s.txns ==> !Holding(s.txns[u].phase)
    ensures Enabled(s, GetForUpdate(t, true)) && LocksOk(Step(s, GetForUpdate(t, true)))
  {
    WaitsForHolder(s, t);
    StepKeepsLocks(s, GetForUpdate(t, true));
  }

  lemma StarterCanCommit(s: State, t: nat) returns (run: seq<Action>)
    requires LocksOk(s) && t in s.txns && s.txns[t].phase == Begun && CanCount(s.db, s.txns[t].path)
    requires forall u :: u in s.txns ==> !Holding(s.txns[u].phase)
    ensures CommitsBy(s, t, run)
  {
    var a := GetForUpdate(t, true);
    AnyoneCanStart(s, t);
    TentativeMoves(s, a);
    var rest := HolderCanCommit(Step(s, a), t);
    StepFirst(s, a, t, rest);
    run := [a] + rest;
  }

  /** One of the transactions at work can commit now. */
  lemma SomeoneCanCommit(s: State) returns (t: nat, run: seq<Action>)
    requires LocksOk(s) && HasRoom(s) && Working(s) != {}
    ensures t in Working(s) && CommitsBy(s, t, run)
  {
    if u :| u in s.txns && Holding(s.txns[u].phase) {
      t := u;
      run := HolderCanCommit(s, t);
    } else {
      t :| t in Working(s);
      run := StarterCanCommit(s, t);
    }
  }

  lemma OneLessWorking(s: State, r: State, t: nat)
    requires OnlyMoved(s, r, t) && t in Working(s) && r.txns[t].phase == Committed
    ensures Working(r) == Working(s) - {t} && |Working(r)| == |Working(s)| - 1
    ensures HasRoom(s) ==> HasRoom(r)
  {
    assert Working(r) == Working(s) - {t};
  }

  /** From every state with its locks in order all transactions at work can commit, none failing,
      as long as the counters have room for them. */
  lemma {:induction false} AllCommitFrom(s: State) returns (run: seq<Action>)
    requires LocksOk(s) && HasRoom(s)
    ensures ValidRun(s, run) && AllSucceed(run)
    ensures var r := Run(s, run);
            && LocksOk(r) && Working(r) == {} && r.txns.Keys == s.txns.Keys
            && forall t :: t in s.txns ==>
                 if t in Working(s) then r.txns[t].phase == Committed else r.txns[t] == s.txns[t]
    decreases |Working(s)|
  {
    if Working(s) == {} {
      run := [];
    } else {
      var t, first := SomeoneCanCommit(s);
      var r := Run(s, first);
      OneLessWorking(s, r, t);
      var rest := AllCommitFrom(r);
      RunConcat(s, first, rest);
      run := first + rest;
    }
  }

  /** Every run, stale or not, can be continued until all transactions have committed that are at work. */
  lemma AllCanCommit(start: Db, run: seq<Action>) returns (more: seq<Action>)
    requires ValidRun(Initial(start), run) && HasRoom(Run(Initial(start), run))
    ensures ValidRun(Initial(start), run + more) && AllSucceed(more)
    ensures var s, r := Run(Initial(start), run), Run(Initial(start), run + more);
            && Working(r) == {} && r.txns.Keys == s.txns.Keys
            && forall t :: t in s.txns ==>
                 if t in Working(s) then r.txns[t].phase == Committed else r.txns[t] == s.txns[t]
  {
    RunKeepsLog(Initial(start), run);
    more := AllCommitFrom(Run(Initial(start), run));
    RunConcat(Initial(start), run, more);
  }
}
