/**
 What any interleaving of writers amounts to.
 */
module TransactionTheorems {
  import opened Keys
  import opened Store
  import opened StoreInvariant
  import StoreProofs
  import opened Transactions
  import opened TransactionProofs
  import opened Submissions

  // ---- Serializability ----

  lemma {:induction false} RunKeepsInv(start: Db, s: State, run: seq<Action>)
    requires Inv(start, s) && ValidRun(s, run) && NeverStale(s, run)
    ensures Inv(start, Run(s, run))
    decreases |run|
  {
    if run != [] {
      StepKeepsInv(start, s, run[0]);
      RunKeepsInv(start, Step(s, run[0]), run[1..]);
    }
  }

  /** However the writers interleave, fail and roll back: the store ends as if the committed ones
      had run one after the other, as long as no `post` wrote over a counter that had moved. */
  lemma RunsAreSerializable(start: Db, run: seq<Action>)
    requires WellFormed(start) && ValidRun(Initial(start), run) && NeverStale(Initial(start), run)
    ensures var s := Run(Initial(start), run);
            WellFormed(s.db) && IsSerial(start, s.log) && s.db == Serial(start, s.log)
  {
    RunKeepsInv(start, Initial(start), run);
  }

  ghost predicate PutsOnly(run: seq<Action>) {
    forall i :: 0 <= i < |run| ==> !run[i].PostWrite?
  }

  lemma {:induction false} PutsAreNeverStale(s: State, run: seq<Action>)
    requires ValidRun(s, run) && PutsOnly(run)
    ensures NeverStale(s, run)
    decreases |run|
  {
    if run != [] {
      PutsAreNeverStale(Step(s, run[0]), run[1..]);
    }
  }

  lemma PutsLogPuts(run: seq<Action>, event: Event)
    requires PutsOnly(run) && Submitted(run, event)
    ensures event.Put? && Began(run, event.txn, event.path, event.data)
  {
  }

  /** `put` transactions alone are serializable under every interleaving: the store ends as if documents
      that clients submitted, each to the endpoint it was submitted to, had been put one after the other. */
  lemma PutsAreSerializable(start: Db, run: seq<Action>)
    requires WellFormed(start) && ValidRun(Initial(start), run) && PutsOnly(run)
    ensures var s := Run(Initial(start), run);
            && WellFormed(s.db) && IsSerial(start, s.log) && s.db == Serial(start, s.log)
            && (forall i :: 0 <= i < |s.log| ==>
                  s.log[i].Put? && Began(run, s.log[i].txn, s.log[i].path, s.log[i].data))
  {
    var s := Run(Initial(start), run);
    PutsAreNeverStale(Initial(start), run);
    RunsAreSerializable(start, run);
    WritesAreSubmitted(start, run);
    forall i | 0 <= i < |s.log|
      ensures s.log[i].Put? && Began(run, s.log[i].txn, s.log[i].path, s.log[i].data)
    {
      PutsLogPuts(run, s.log[i]);
    }
  }

  // ---- Ids ----

  function Occurrences(log: seq<Event>, path: string): nat {
    if log == [] then 0 else (if log[0].path == path then 1 else 0) + Occurrences(log[1..], path)
  }

  /** Events that a run can log. */
  ghost predicate Loggable(db: Db, log: seq<Event>) {
    forall i :: 0 <= i < |log| ==>
      log[i].path in DocumentEndpoints(db) &&
      (log[i].Put? ==> BranchOfPut(db, log[i].path).Transaction?) && (log[i].Post? ==> log[i].data.Obj?)
  }

  /** Each event takes the number its counter shows and steps the counter. */
  ghost predicate CountsUp(counters: map<string, string>, log: seq<Event>)
    decreases |log|
  {
    log == [] ||
    (log[0].path in counters && log[0].id == Atoi(counters[log[0].path]) &&
     CountsUp(counters[log[0].path := ToString(log[0].id + 1)], log[1..]))
  }

  lemma SerialStepIsCommit(db: Db, e: Event)
    requires WellFormed(db) && e.path in DocumentEndpoints(db) && CanCount(db, e.path)
    requires e.Put? ==> BranchOfPut(db, e.path).Transaction?
    requires e.Post? ==> e.data.Obj?
    ensures SerialStep(db, e) == CommitPut(db, e.path, if e.Put? then e.data else WithId(e.data, db.counters[e.path]))
  {
  }

  lemma SerialStepKeeps(db: Db, e: Event)
    requires WellFormed(db) && e.path in DocumentEndpoints(db) && CanCount(db, e.path) && e.id == Count(db, e.path)
    requires e.Put? ==> BranchOfPut(db, e.path).Transaction?
    requires e.Post? ==> e.data.Obj?
    ensures var t := SerialStep(db, e);
            && WellFormed(t) && t.counters == db.counters[e.path := ToString(e.id + 1)]
            && t.counters.Keys == db.counters.Keys
  {
    var doc := if e.Put? then e.data else WithId(e.data, db.counters[e.path]);
    SerialStepIsCommit(db, e);
    StoreProofs.CommitKeepsWellFormed(db, e.path, doc);
  }

  lemma TailLoggable(db: Db, t: Db, log: seq<Event>)
    requires Loggable(db, log) && log != [] && t.counters.Keys == db.counters.Keys
    ensures Loggable(t, log[1..])
  {
  }

  lemma SerialTail(db: Db, log: seq<Event>)
    requires WellFormed(db) && IsSerial(db, log) && Loggable(db, log) && log != []
    ensures var t := SerialStep(db, log[0]);
            && WellFormed(t) && IsSerial(t, log[1..]) && Loggable(t, log[1..])
            && log[0].path in db.counters && log[0].id == Count(db, log[0].path)
            && t.counters == db.counters[log[0].path := ToString(log[0].id + 1)] && t.counters.Keys == db.counters.Keys
  {
    SerialStepKeeps(db, log[0]);
    TailLoggable(db, SerialStep(db, log[0]), log);
  }

  lemma {:induction false} SerialCountsUp(db: Db, log: seq<Event>)
    requires WellFormed(db) && IsSerial(db, log) && Loggable(db, log)
    ensures CountsUp(db.counters, log)
    decreases |log|
  {
    if log != [] {
      SerialTail(db, log);
      SerialCountsUp(SerialStep(db, log[0]), log[1..]);
    }
  }

  lemma {:induction false} CountsUpIsDense(counters: map<string, string>, log: seq<Event>, i: nat)
    requires CountsUp(counters, log) && i < |log| && log[i].path in counters
    ensures log[i].id == Atoi(counters[log[i].path]) + Occurrences(log[..i], log[i].path)
    decreases |log|
  {
    if i > 0 {
      AtoiToString(log[0].id + 1);
      CountsUpIsDense(counters[log[0].path := ToString(log[0].id + 1)], log[1..], i - 1);
      assert log[..i][1..] == log[1..][..i - 1];
    }
  }

  /** The n-th writer of an endpoint gets the n-th id: ids are distinct and leave no gap. */
  lemma IdsAreDense(start: Db, log: seq<Event>, i: nat)
    requires WellFormed(start) && IsSerial(start, log) && Loggable(start, log) && i < |log|
    ensures log[i].id == Count(start, log[i].path) + Occurrences(log[..i], log[i].path)
  {
    SerialCountsUp(start, log);
    CountsUpIsDense(start.counters, log, i);
  }

  lemma {:induction false} OccurrencesGrow(log: seq<Event>, i: nat, j: nat, path: string)
    requires i < j <= |log| && log[i].path == path
    ensures Occurrences(log[..i], path) < Occurrences(log[..j], path)
    decreases i
  {
    assert log[..j][1..] == log[1..][..j - 1];
    if i > 0 {
      assert log[..i][1..] == log[1..][..i - 1];
      OccurrencesGrow(log[1..], i - 1, j - 1, path);
    }
  }

  /** No two committed writers of an endpoint use the same id. */
  lemma IdsAreDistinct(start: Db, log: seq<Event>, i: nat, j: nat)
    requires WellFormed(start) && IsSerial(start, log) && Loggable(start, log)
    requires i < j < |log| && log[i].path == log[j].path
    ensures log[i].id < log[j].id
  {
    IdsAreDense(start, log, i);
    IdsAreDense(start, log, j);
    OccurrencesGrow(log, i, j, log[i].path);
  }

  // ---- The log and the transactions ----

  /** The event is the one of a committed transaction. */
  ghost predicate Justified(txns: map<nat, Txn>, e: Event) {
    e.Put? ==>
      e.txn in txns && txns[e.txn].phase == Committed &&
      e.path == txns[e.txn].path && e.data == txns[e.txn].data && e.id == txns[e.txn].id
  }

  ghost predicate IsLogged(log: seq<Event>, t: nat) {
    exists i :: 0 <= i < |log| && log[i].Put? && log[i].txn == t
  }

  ghost predicate LoggedOnce(log: seq<Event>) {
    forall i, j :: 0 <= i < j < |log| && log[i].Put? && log[j].Put? ==> log[i].txn != log[j].txn
  }

  /** The log holds each committed transaction once, and no other one. */
  ghost predicate LogOk(s: State) {
    && (forall i :: 0 <= i < |s.log| ==> Justified(s.txns, s.log[i]))
    && (forall t :: t in s.txns && s.txns[t].phase == Committed ==> IsLogged(s.log, t))
    && LoggedOnce(s.log)
    && Loggable(s.db, s.log)
  }

  lemma TxnStepKeepsLog(s: State, r: State, t: nat)
    requires LogOk(s) && r.log == s.log && r.db == s.db && (t in s.txns ==> s.txns[t].phase != Committed)
    requires t in r.txns && r.txns[t].phase != Committed && r.txns == s.txns[t := r.txns[t]]
    ensures LogOk(r)
  {
  }

  lemma CommitKeepsLog(s: State, t: nat)
    requires LogOk(s) && t in s.txns && s.txns[t].phase == Indexed && TxnOk(s.db, s.locks, t, s.txns[t])
    requires DoCommit(s, t).db.counters.Keys == s.db.counters.Keys
    ensures LogOk(DoCommit(s, t))
  {
    var r := DoCommit(s, t);
    forall i | 0 <= i < |r.log| ensures Justified(r.txns, r.log[i]) {
      assert i < |s.log| ==> Justified(s.txns, s.log[i]);
    }
    forall u | u in r.txns && r.txns[u].phase == Committed ensures IsLogged(r.log, u) {
      if u == t {
        assert r.log[|s.log|].Put? && r.log[|s.log|].txn == t;
      } else {
        assert IsLogged(s.log, u);
        var i :| 0 <= i < |s.log| && s.log[i].Put? && s.log[i].txn == u;
        assert r.log[i] == s.log[i];
      }
    }
    forall i | 0 <= i < |s.log| && s.log[i].Put? ensures s.log[i].txn != t {
      assert Justified(s.txns, s.log[i]);
    }
  }

  lemma PostKeepsLog(s: State, p: nat)
    requires LogOk(s) && p in s.posts && PostOk(s.db, s.posts[p])
    requires DoPostWrite(s, p).db.counters.Keys == s.db.counters.Keys
    ensures LogOk(DoPostWrite(s, p))
  {
    var r := DoPostWrite(s, p);
    forall t | t in r.txns && r.txns[t].phase == Committed ensures IsLogged(r.log, t) {
      var i :| 0 <= i < |s.log| && s.log[i].Put? && s.log[i].txn == t;
      assert r.log[i] == s.log[i];
    }
  }

  /** Steps of a transaction short of its commit. */
  predicate Tentative(a: Action) {
    a.Begin? || a.GetForUpdate? || a.PutObject? || a.PutIndex? || (a.Commit? && !a.ok)
  }

  lemma TentativeKeepsLog(s: State, a: Action)
    requires LogOk(s) && Enabled(s, a) && Tentative(a)
    ensures LogOk(Step(s, a))
  {
    TxnStepKeepsLog(s, Step(s, a), a.t);
  }

  lemma StepKeepsLog(s: State, a: Action)
    requires LocksOk(s) && LogOk(s) && Enabled(s, a)
    ensures LogOk(Step(s, a))
  {
    if Tentative(a) {
      TentativeKeepsLog(s, a);
    } else if a.Commit? {
      assert TxnOk(s.db, s.locks, a.t, s.txns[a.t]);
      CommitSetsCounter(s, a.t);
      CommitKeepsLog(s, a.t);
    } else if a.PostWrite? && a.ok {
      assert PostOk(s.db, s.posts[a.p]);
      PostSetsOneCounter(s, a.p);
      PostKeepsLog(s, a.p);
    }
  }

  /** Over every run, stale or not, locks and log stay in order. */
  lemma {:induction false} RunKeepsLog(s: State, run: seq<Action>)
    requires LocksOk(s) && LogOk(s) && ValidRun(s, run)
    ensures LocksOk(Run(s, run)) && LogOk(Run(s, run))
    decreases |run|
  {
    if run != [] {
      StepKeepsLocks(s, run[0]);
      StepKeepsLog(s, run[0]);
      RunKeepsLog(Step(s, run[0]), run[1..]);
    }
  }

  /** What takes effect is what was committed: over every run, every committed transaction once, with the
      id it read, and nothing of a transaction that was rolled back or is still at work. */
  lemma CommittedIsLogged(start: Db, run: seq<Action>, t: nat)
    requires ValidRun(Initial(start), run)
    ensures var s := Run(Initial(start), run);
            && LoggedOnce(s.log)
            && (t in s.txns && s.txns[t].phase == Committed <==> IsLogged(s.log, t))
            && (forall i :: 0 <= i < |s.log| ==> Justified(s.txns, s.log[i]))
  {
    RunKeepsLog(Initial(start), run);
  }

  // ---- Ids over whole runs ----

  lemma {:induction false} SerialKeepsEndpoints(db: Db, log: seq<Event>)
    requires IsSerial(db, log)
    ensures Serial(db, log).counters.Keys == db.counters.Keys
    decreases |log|
  {
    if log != [] {
      assert SerialStep(db, log[0]).counters.Keys == db.counters.Keys;
      SerialKeepsEndpoints(SerialStep(db, log[0]), log[1..]);
    }
  }

  /** What the counters become when each event steps its own. */
  ghost function CountersAfter(counters: map<string, string>, log: seq<Event>): map<string, string>
    decreases |log|
  {
    if log == [] then counters
    else CountersAfter(counters[log[0].path := ToString(log[0].id + 1)], log[1..])
  }

  lemma {:induction false} SerialCounters(db: Db, log: seq<Event>)
    requires WellFormed(db) && IsSerial(db, log) && Loggable(db, log)
    ensures Serial(db, log).counters == CountersAfter(db.counters, log)
    decreases |log|
  {
    if log != [] {
      SerialTail(db, log);
      SerialCounters(SerialStep(db, log[0]), log[1..]);
    }
  }

  lemma {:induction false} CountsUpCount(counters: map<string, string>, log: seq<Event>, e: string)
    requires CountsUp(counters, log) && e in counters
    ensures e in CountersAfter(counters, log)
    ensures Atoi(CountersAfter(counters, log)[e]) == Atoi(counters[e]) + Occurrences(log, e)
    decreases |log|
  {
    if log != [] {
      AtoiToString(log[0].id + 1);
      CountsUpCount(counters[log[0].path := ToString(log[0].id + 1)], log[1..], e);
    }
  }

  lemma SerialCount(db: Db, log: seq<Event>, e: string)
    requires WellFormed(db) && IsSerial(db, log) && Loggable(db, log) && e in DocumentEndpoints(db)
    ensures e in Serial(db, log).counters
    ensures Count(Serial(db, log), e) == Count(db, e) + Occurrences(log, e)
  {
    SerialCountsUp(db, log);
    SerialCounters(db, log);
    CountsUpCount(db.counters, log, e);
  }

  lemma SameEndpointsLoggable(db: Db, t: Db, log: seq<Event>)
    requires Loggable(db, log) && t.counters.Keys == db.counters.Keys
    ensures Loggable(t, log)
  {
  }

  lemma RunIsLoggable(start: Db, run: seq<Action>)
    requires WellFormed(start) && ValidRun(Initial(start), run) && NeverStale(Initial(start), run)
    ensures var s := Run(Initial(start), run);
            IsSerial(start, s.log) && s.db == Serial(start, s.log) && Loggable(start, s.log)
  {
    var s := Run(Initial(start), run);
    RunKeepsLog(Initial(start), run);
    RunsAreSerializable(start, run);
    SerialKeepsEndpoints(start, s.log);
    SameEndpointsLoggable(s.db, start, s.log);
  }

  /** Over every run without a stale `post`: the committed writers of an endpoint take consecutive
      ids in the order in which they committed, and its counter has moved by one for each of them. */
  lemma RunIdsAreDense(start: Db, run: seq<Action>, i: nat, e: string)
    requires WellFormed(start) && ValidRun(Initial(start), run) && NeverStale(Initial(start), run)
    ensures var s := Run(Initial(start), run);
            && Loggable(start, s.log)
            && (i < |s.log| ==> s.log[i].id == Count(start, s.log[i].path) + Occurrences(s.log[..i], s.log[i].path))
            && (e in DocumentEndpoints(start) ==>
                  e in s.db.counters && Count(s.db, e) == Count(start, e) + Occurrences(s.log, e))
  {
    var s := Run(Initial(start), run);
    RunIsLoggable(start, run);
    if i < |s.log| {
      IdsAreDense(start, s.log, i);
    }
    if e in DocumentEndpoints(start) {
      SerialCount(start, s.log, e);
    }
  }

  // ---- Progress ----

  /** The step that takes a transaction further when nothing fails. */
  function NextStep(t: nat, phase: Phase): Action
    requires phase == Begun || Holding(phase)
  {
    match phase
    case Begun => GetForUpdate(t, true)
    case Counted => PutObject(t, true)
    case Stored => PutIndex(t, true)
    case Indexed => Action.Commit(t, true)
  }

  /** Transactions wait for counters only, and whoever holds one can always go on: over every run,
      stale or not, there is no deadlock. */
  lemma NoDeadlock(start: Db, run: seq<Action>, t: nat)
    requires ValidRun(Initial(start), run) && t in Run(Initial(start), run).txns
    ensures var s := Run(Initial(start), run);
            && (Holding(s.txns[t].phase) ==> Enabled(s, NextStep(t, s.txns[t].phase)))
            && (s.txns[t].phase == Begun && CanCount(s.db, s.txns[t].path) ==>
                  Enabled(s, NextStep(t, Begun)) ||
                  exists u :: u in s.txns && Holding(s.txns[u].phase) && s.txns[u].path == s.txns[t].path)
  {
    var s := Run(Initial(start), run);
    RunKeepsLog(Initial(start), run);
    if Holding(s.txns[t].phase) {
      HolderGoesOn(s, t);
    } else if s.txns[t].phase == Begun && CanCount(s.db, s.txns[t].path) {
      WaitsForHolder(s, t);
    }
  }

  lemma HolderGoesOn(s: State, t: nat)
    requires TablesOk(s.db, s.locks, s.txns) && t in s.txns && Holding(s.txns[t].phase)
    ensures Enabled(s, NextStep(t, s.txns[t].phase))
  {
    ObjectLocksAreFree(s, t);
  }

  lemma WaitsForHolder(s: State, t: nat)
    requires TablesOk(s.db, s.locks, s.txns) && t in s.txns && s.txns[t].phase == Begun &&
             CanCount(s.db, s.txns[t].path)
    ensures Enabled(s, GetForUpdate(t, true)) ||
            exists u :: u in s.txns && Holding(s.txns[u].phase) && s.txns[u].path == s.txns[t].path
  {
  }

  /** The object a transaction writes is locked by nobody else: whoever could hold its lock
      would hold the counter too. */
  lemma ObjectLocksAreFree(s: State, t: nat)
    requires TablesOk(s.db, s.locks, s.txns) && t in s.txns && Holding(s.txns[t].phase)
    ensures Free(s, ObjectLock(s.txns[t].path, TheKey(s.txns[t])), t)
    ensures Free(s, ObjectLock(ALL, TheKey(s.txns[t])), t)
  {
    var txn := s.txns[t];
    forall l | l in s.locks && (l == ObjectLock(txn.path, TheKey(txn)) || l == ObjectLock(ALL, TheKey(txn)))
      ensures s.locks[l] == t
    {
      var u := s.locks[l];
      assert LockOk(s.txns, l, u) && TxnOk(s.db, s.locks, u, s.txns[u]) && TxnOk(s.db, s.locks, t, txn);
      ObjectKeyIsInjective(s.txns[u].path, s.txns[u].id, txn.path, txn.id);
    }
  }

  // ---- The lost update ----

  /** The second of two batches with one id replaces what the first one stored. */
  lemma SecondBatchWins(db: Db, p: Pending, q: Pending)
    requires p.path == q.path && p.id == q.id && p.path != ALL
    ensures var t := ApplyBuffer(ApplyBuffer(db, PostBatch(p)), PostBatch(q));
            && t.counters == db.counters[q.path := ToString(q.id + 1)]
            && FamilyOf(t, q.path) == FamilyOf(db, q.path)[ObjectKey(q.path, q.id) := PostDoc(q)]
  {
    var r := ApplyBuffer(db, PostBatch(p));
    BatchSetsCounter(db, p);
    BatchSetsCounter(r, q);
    ApplyThree(db, PostBatch(p)[0], PostBatch(p)[1], PostBatch(p)[2]);
    ApplyThree(r, PostBatch(q)[0], PostBatch(q)[1], PostBatch(q)[2]);
  }

  /** Two `post`s that read before either writes use one id: the second overwrites the first. */
  lemma PostsCanCollide(db: Db, e: string, a: Json, b: Json)
    requires WellFormed(db) && e in DocumentEndpoints(db) && CanCount(db, e) && a.Obj? && b.Obj?
    ensures var run := [PostRead(0, e, a), PostRead(1, e, b), PostWrite(0, true), PostWrite(1, true)];
            ValidRun(Initial(db), run) && !NeverStale(Initial(db), run) &&
            var s, n := Run(Initial(db), run), Count(db, e);
            s.log == [Event.Post(e, a, n), Event.Post(e, b, n)] &&
            s.db.counters == db.counters[e := ToString(n + 1)] &&
            FamilyOf(s.db, e) == FamilyOf(db, e)[ObjectKey(e, n) := WithId(b, ToString(n))]
  {
    var n := Count(db, e);
    var p, q := Pending(e, a, n), Pending(e, b, n);
    var s1 := Initial(db).(posts := map[0 := p]);
    var s2 := s1.(posts := s1.posts[1 := q]);
    var s3 := DoPostWrite(s2, 0);
    var s4 := DoPostWrite(s3, 1);
    CollidingReads(db, e, a, b);
    CollidingSteps(db, e, a, b);
    LastStep(s3, PostWrite(1, true));
    FirstStep(s2, PostWrite(0, true), [PostWrite(1, true)]);
    FirstStep(s1, PostRead(1, e, b), [PostWrite(0, true), PostWrite(1, true)]);
    FirstStep(Initial(db), PostRead(0, e, a), [PostRead(1, e, b), PostWrite(0, true), PostWrite(1, true)]);
  }

  /** Both read before either writes, and so both can. */
  lemma CollidingReads(db: Db, e: string, a: Json, b: Json)
    requires e in DocumentEndpoints(db) && CanCount(db, e) && a.Obj? && b.Obj?
    ensures var n := Count(db, e);
            var s1 := Initial(db).(posts := map[0 := Pending(e, a, n)]);
            var s2 := s1.(posts := s1.posts[1 := Pending(e, b, n)]);
            && Enabled(Initial(db), PostRead(0, e, a)) && Step(Initial(db), PostRead(0, e, a)) == s1
            && Enabled(s1, PostRead(1, e, b)) && Step(s1, PostRead(1, e, b)) == s2
            && Enabled(s2, PostWrite(0, true)) && Enabled(DoPostWrite(s2, 0), PostWrite(1, true))
  {
  }

  lemma CollidingSteps(db: Db, e: string, a: Json, b: Json)
    requires WellFormed(db) && e in DocumentEndpoints(db) && CanCount(db, e) && a.Obj? && b.Obj?
    ensures var n := Count(db, e);
            var s2 := State(db, map[], map[], map[0 := Pending(e, a, n), 1 := Pending(e, b, n)], []);
            var s3 := DoPostWrite(s2, 0);
            var s4 := DoPostWrite(s3, 1);
            !IsFreshPost(s3, 1) && s4.db.counters == db.counters[e := ToString(n + 1)] &&
            FamilyOf(s4.db, e) == FamilyOf(db, e)[ObjectKey(e, n) := WithId(b, ToString(n))]
  {
    var n := Count(db, e);
    BatchSetsCounter(db, Pending(e, a, n));
    ToStringIsInjective(n, n + 1);
    StoreProofs.WellFormedEndpointNames(db, e);
    SecondBatchWins(db, Pending(e, a, n), Pending(e, b, n));
  }

  lemma LastStep(s: State, a: Action)
    requires Enabled(s, a)
    ensures ValidRun(s, [a]) && Run(s, [a]) == Step(s, a) && NeverStale(s, [a]) == !Stale(s, a)
  {
  }

  lemma FirstStep(s: State, a: Action, rest: seq<Action>)
    requires Enabled(s, a) && ValidRun(Step(s, a), rest)
    ensures ValidRun(s, [a] + rest) && Run(s, [a] + rest) == Run(Step(s, a), rest)
    ensures NeverStale(s, [a] + rest) == (!Stale(s, a) && NeverStale(Step(s, a), rest))
  {
  }
}
