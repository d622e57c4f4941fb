/**
 Exactly when a run of writers is serializable: when no `post` writes over a counter that has moved.
 Otherwise an update is lost, and no serial order of as many writers ends in the same store.
 */
module Serializability {
  import opened Keys
  import opened Store
  import opened StoreInvariant
  import StoreProofs
  import opened StoreTheorems
  import opened Transactions
  import opened TransactionProofs
  import opened Submissions
  import opened TransactionTheorems

  // ---- Counters under every interleaving, stale or not ----

  /** What the counter of an endpoint shows when no update was lost. */
  ghost function Due(start: Db, log: seq<Event>, e: string): nat
    requires e in start.counters
  {
    Count(start, e) + Occurrences(log, e)
  }

  /** The counter is a number, and at most what is due. */
  ghost predicate CounterOk(start: Db, counters: map<string, string>, log: seq<Event>, e: string)
    requires e in start.counters && e in counters
  {
    counters[e] == ToString(Atoi(counters[e])) && Atoi(counters[e]) <= Due(start, log, e)
  }

  /** The number a `post` has read is at most what is due, and if it is due the counter still shows it. */
  ghost predicate PendingOk(start: Db, counters: map<string, string>, log: seq<Event>, p: Pending)
    requires p.path in start.counters && p.path in counters
  {
    p.id <= Due(start, log, p.path) && (p.id == Due(start, log, p.path) ==> counters[p.path] == ToString(p.id))
  }

  ghost predicate CountersOk(start: Db, counters: map<string, string>, log: seq<Event>) {
    counters.Keys == start.counters.Keys &&
    forall e :: e in DocumentEndpoints(start) ==> CounterOk(start, counters, log, e)
  }

  ghost predicate PendingsOk(start: Db, counters: map<string, string>, log: seq<Event>, posts: map<nat, Pending>) {
    counters.Keys == start.counters.Keys &&
    forall p :: p in posts ==>
      posts[p].path in DocumentEndpoints(start) && PendingOk(start, counters, log, posts[p])
  }

  ghost predicate TallyOk(start: Db, s: State) {
    && CountersOk(start, s.db.counters, s.log) && PendingsOk(start, s.db.counters, s.log, s.posts)
    && LocksOk(s)
  }

  /** Fewer steps of the counter than writers that took effect. */
  ghost predicate Lost(start: Db, counters: map<string, string>, log: seq<Event>, e: string) {
    e in DocumentEndpoints(start) && e in counters && Atoi(counters[e]) < Due(start, log, e)
  }

  ghost predicate NothingLost(start: Db, counters: map<string, string>, log: seq<Event>) {
    forall e :: e in DocumentEndpoints(start) ==> !Lost(start, counters, log, e)
  }

  lemma {:induction false} OccurrencesSnoc(log: seq<Event>, event: Event, e: string)
    ensures Occurrences(log + [event], e) == Occurrences(log, e) + if event.path == e then 1 else 0
    decreases |log|
  {
    if log == [] {
      assert ([] + [event])[1..] == [];
    } else {
      assert (log + [event])[1..] == log[1..] + [event];
      OccurrencesSnoc(log[1..], event, e);
    }
  }

  // ---- One write ----

  lemma WriteKeepsCounters(start: Db, counters: map<string, string>, log: seq<Event>, event: Event)
    requires CountersOk(start, counters, log)
    requires event.path in DocumentEndpoints(start) && event.id <= Due(start, log, event.path)
    ensures CountersOk(start, counters[event.path := ToString(event.id + 1)], log + [event])
  {
    var after := counters[event.path := ToString(event.id + 1)];
    assert after.Keys == counters.Keys;
    forall e | e in DocumentEndpoints(start) ensures CounterOk(start, after, log + [event], e) {
      assert CounterOk(start, counters, log, e);
      OccurrencesSnoc(log, event, e);
      AtoiToString(event.id + 1);
    }
  }

  lemma WriteKeepsPendings(start: Db, counters: map<string, string>, log: seq<Event>, posts: map<nat, Pending>,
                           event: Event)
    requires PendingsOk(start, counters, log, posts) && event.path in DocumentEndpoints(start)
    ensures PendingsOk(start, counters[event.path := ToString(event.id + 1)], log + [event], posts)
  {
    var after := counters[event.path := ToString(event.id + 1)];
    assert after.Keys == counters.Keys;
    forall p | p in posts ensures PendingOk(start, after, log + [event], posts[p]) {
      assert PendingOk(start, counters, log, posts[p]);
      OccurrencesSnoc(log, event, posts[p].path);
    }
  }

  /** A write that uses what is due loses nothing more; any other write loses an update;
      and what is lost stays lost. */
  lemma WriteLoses(start: Db, counters: map<string, string>, log: seq<Event>, event: Event, e: string)
    requires CountersOk(start, counters, log)
    requires event.path in DocumentEndpoints(start) && e in DocumentEndpoints(start)
    requires event.id < Due(start, log, event.path) || event.id == Atoi(counters[event.path])
    ensures Lost(start, counters[event.path := ToString(event.id + 1)], log + [event], e) <==>
            if e == event.path then event.id < Due(start, log, e) else Lost(start, counters, log, e)
  {
    OccurrencesSnoc(log, event, e);
    AtoiToString(event.id + 1);
  }

  // ---- One step ----

  /** What the log gets when a writer takes effect. */
  ghost function EventOf(s: State, a: Action): Event
    requires Enabled(s, a) && Writes(a)
  {
    if a.Commit? then Event.Put(a.t, s.txns[a.t].path, s.txns[a.t].data, s.txns[a.t].id)
    else Event.Post(s.posts[a.p].path, s.posts[a.p].data, s.posts[a.p].id)
  }

  lemma WriteStep(start: Db, s: State, a: Action)
    requires TallyOk(start, s) && Enabled(s, a) && Writes(a)
    ensures var r, event := Step(s, a), EventOf(s, a);
            && r.log == s.log + [event] && event.path in DocumentEndpoints(start)
            && r.db.counters == s.db.counters[event.path := ToString(event.id + 1)]
            && event.id <= Due(start, s.log, event.path)
            && (event.id < Due(start, s.log, event.path) || event.id == Atoi(s.db.counters[event.path]))
            && (Stale(s, a) ==> event.id < Due(start, s.log, event.path))
            && (!Stale(s, a) ==> event.id == Atoi(s.db.counters[event.path]))
  {
    if a.Commit? {
      assert TxnOk(s.db, s.locks, a.t, s.txns[a.t]);
      CommitSetsCounter(s, a.t);
      assert CounterOk(start, s.db.counters, s.log, s.txns[a.t].path);
    } else {
      assert PendingOk(start, s.db.counters, s.log, s.posts[a.p]);
      PostSetsOneCounter(s, a.p);
      AtoiToString(s.posts[a.p].id);
    }
  }

  lemma FewerPendings(start: Db, counters: map<string, string>, log: seq<Event>,
                      posts: map<nat, Pending>, fewer: map<nat, Pending>)
    requires PendingsOk(start, counters, log, posts)
    requires forall p :: p in fewer ==> p in posts && fewer[p] == posts[p]
    ensures PendingsOk(start, counters, log, fewer)
  {
    forall p | p in fewer ensures PendingOk(start, counters, log, fewer[p]) {
      assert PendingOk(start, counters, log, posts[p]);
    }
  }

  lemma WriteKeepsTally(start: Db, s: State, a: Action)
    requires TallyOk(start, s) && Enabled(s, a) && Writes(a)
    ensures TallyOk(start, Step(s, a))
  {
    var r, event := Step(s, a), EventOf(s, a);
    WriteStep(start, s, a);
    StepKeepsLocks(s, a);
    WriteKeepsCounters(start, s.db.counters, s.log, event);
    WriteKeepsPendings(start, s.db.counters, s.log, s.posts, event);
    FewerPendings(start, r.db.counters, r.log, s.posts, r.posts);
  }

  lemma ReadKeepsPendings(start: Db, s: State, p: nat, path: string, data: Json)
    requires TallyOk(start, s) && Enabled(s, PostRead(p, path, data))
    ensures PendingsOk(start, s.db.counters, s.log, Step(s, PostRead(p, path, data)).posts)
  {
    var r := Step(s, PostRead(p, path, data));
    assert CounterOk(start, s.db.counters, s.log, path);
    forall q | q in r.posts ensures PendingOk(start, s.db.counters, s.log, r.posts[q]) {
      assert q != p ==> PendingOk(start, s.db.counters, s.log, s.posts[q]);
    }
  }

  lemma QuietKeepsTally(start: Db, s: State, a: Action)
    requires TallyOk(start, s) && Enabled(s, a) && !Writes(a)
    ensures TallyOk(start, Step(s, a))
  {
    QuietKeepsStore(s, a);
    StepKeepsLocks(s, a);
    if a.PostRead? {
      ReadKeepsPendings(start, s, a.p, a.path, a.data);
    } else {
      FewerPendings(start, s.db.counters, s.log, s.posts, Step(s, a).posts);
    }
  }

  /** Every step, stale or not. */
  lemma StepKeepsTally(start: Db, s: State, a: Action)
    requires TallyOk(start, s) && Enabled(s, a)
    ensures TallyOk(start, Step(s, a))
  {
    if Writes(a) {
      WriteKeepsTally(start, s, a);
    } else {
      QuietKeepsTally(start, s, a);
    }
  }

  ghost predicate Intact(start: Db, s: State) {
    NothingLost(start, s.db.counters, s.log)
  }

  lemma WriteLosesIff(start: Db, s: State, a: Action)
    requires TallyOk(start, s) && Enabled(s, a) && Writes(a)
    ensures Intact(start, Step(s, a)) <==> Intact(start, s) && !Stale(s, a)
  {
    var r, event := Step(s, a), EventOf(s, a);
    WriteStep(start, s, a);
    forall e | e in DocumentEndpoints(start)
      ensures Lost(start, r.db.counters, r.log, e) <==>
              if e == event.path then event.id < Due(start, s.log, e) else Lost(start, s.db.counters, s.log, e)
    {
      WriteLoses(start, s.db.counters, s.log, event, e);
    }
  }

  /** A step loses an update exactly when it is stale, and no step finds one again. */
  lemma StepLosesIff(start: Db, s: State, a: Action)
    requires TallyOk(start, s) && Enabled(s, a)
    ensures Intact(start, Step(s, a)) <==> Intact(start, s) && !Stale(s, a)
  {
    if Writes(a) {
      WriteLosesIff(start, s, a);
    } else {
      QuietKeepsStore(s, a);
    }
  }

  // ---- Whole runs ----

  lemma {:induction false} RunKeepsTally(start: Db, s: State, run: seq<Action>)
    requires TallyOk(start, s) && ValidRun(s, run)
    ensures TallyOk(start, Run(s, run))
    ensures Intact(start, Run(s, run)) <==> Intact(start, s) && NeverStale(s, run)
    decreases |run|
  {
    if run != [] {
      StepLosesIff(start, s, run[0]);
      StepKeepsTally(start, s, run[0]);
      RunKeepsTally(start, Step(s, run[0]), run[1..]);
    }
  }

  lemma InitialTally(start: Db)
    requires WellFormed(start)
    ensures TallyOk(start, Initial(start)) && Intact(start, Initial(start))
  {
    forall e | e in DocumentEndpoints(start) ensures CounterOk(start, start.counters, [], e) {
      assert Dense(start, e);
    }
  }

  /** No update is lost in a run if and only if no `post` in it wrote over a counter that had moved:
      then, and only then, has every counter moved by one for each writer that took effect. */
  lemma NoLostUpdateIff(start: Db, run: seq<Action>)
    requires WellFormed(start) && ValidRun(Initial(start), run)
    ensures var s := Run(Initial(start), run);
            && s.db.counters.Keys == start.counters.Keys
            && (NeverStale(Initial(start), run) <==>
                forall e :: e in DocumentEndpoints(start) ==>
                  Count(s.db, e) == Count(start, e) + Occurrences(s.log, e))
  {
    var s := Run(Initial(start), run);
    InitialTally(start);
    RunKeepsTally(start, Initial(start), run);
    forall e | e in DocumentEndpoints(start)
      ensures Lost(start, s.db.counters, s.log, e) <==> Count(s.db, e) != Due(start, s.log, e)
    {
      assert CounterOk(start, s.db.counters, s.log, e);
    }
  }

  /** A serial order of as many writers on each endpoint that ends in the same store. */
  ghost predicate SerialOrder(start: Db, s: State, log: seq<Event>) {
    && IsSerial(start, log) && Loggable(start, log) && Serial(start, log) == s.db
    && forall e :: e in DocumentEndpoints(start) ==> Occurrences(log, e) == Occurrences(s.log, e)
  }

  lemma SerialOrderLosesNothing(start: Db, s: State, log: seq<Event>, e: string)
    requires WellFormed(start) && SerialOrder(start, s, log) && e in DocumentEndpoints(start)
    ensures e in s.db.counters && Count(s.db, e) == Count(start, e) + Occurrences(s.log, e)
  {
    SerialCount(start, log, e);
  }

  /** What the writers asked for, whatever ids they got. */
  function Requests(log: seq<Event>): (requests: seq<Event>)
    ensures |requests| == |log| && forall i :: 0 <= i < |log| ==> requests[i] == log[i].(id := 0)
  {
    seq(|log|, i requires 0 <= i < |log| => log[i].(id := 0))
  }

  /** A serial order of just the writers that took effect, with the documents that clients submitted. */
  ghost predicate SerialOrderOf(start: Db, run: seq<Action>, log: seq<Event>)
    requires ValidRun(Initial(start), run)
  {
    var s := Run(Initial(start), run);
    && SerialOrder(start, s, log) && multiset(Requests(log)) == multiset(Requests(s.log))
    && forall i :: 0 <= i < |log| ==> Submitted(run, log[i])
  }

  /** A run is serializable, as an order of the documents submitted or merely as one of as many writers,
      if and only if no `post` in it wrote over a counter that had moved. */
  lemma SerializableIff(start: Db, run: seq<Action>)
    requires WellFormed(start) && ValidRun(Initial(start), run)
    ensures (exists log :: SerialOrder(start, Run(Initial(start), run), log)) <==> NeverStale(Initial(start), run)
    ensures (exists log :: SerialOrderOf(start, run, log)) <==> NeverStale(Initial(start), run)
  {
    WritesAreSubmitted(start, run);
    var s := Run(Initial(start), run);
    NoLostUpdateIff(start, run);
    if NeverStale(Initial(start), run) {
      RunIsLoggable(start, run);
      assert SerialOrder(start, s, s.log);
      assert SerialOrderOf(start, run, s.log);
    }
    if log :| SerialOrder(start, s, log) {
      forall e | e in DocumentEndpoints(start) ensures Count(s.db, e) == Count(start, e) + Occurrences(s.log, e) {
        SerialOrderLosesNothing(start, s, log, e);
      }
    }
  }

  // ---- The commit order itself ----

  lemma {:induction false} PrefixIsSerial(db: Db, log: seq<Event>, more: seq<Event>)
    requires IsSerial(db, log + more)
    ensures IsSerial(db, log)
    ensures more != [] ==>
              more[0].path in Serial(db, log).counters && more[0].id == Count(Serial(db, log), more[0].path)
    decreases |log|
  {
    if log == [] {
      assert log + more == more;
    } else {
      assert (log + more)[1..] == log[1..] + more;
      PrefixIsSerial(SerialStep(db, log[0]), log[1..], more);
    }
  }

  lemma LogGrows(s: State, a: Action)
    requires Enabled(s, a)
    ensures s.log <= Step(s, a).log
  {
  }

  lemma {:induction false} RunGrowsLog(s: State, run: seq<Action>)
    requires ValidRun(s, run)
    ensures s.log <= Run(s, run).log
    decreases |run|
  {
    if run != [] {
      LogGrows(s, run[0]);
      RunGrowsLog(Step(s, run[0]), run[1..]);
    }
  }

  lemma StaleIdIsOld(start: Db, s: State, a: Action)
    requires Inv(start, s) && Enabled(s, a) && Stale(s, a)
    ensures s.posts[a.p].path in s.db.counters && s.posts[a.p].id != Count(s.db, s.posts[a.p].path)
    ensures Step(s, a).log == s.log + [Event.Post(s.posts[a.p].path, s.posts[a.p].data, s.posts[a.p].id)]
  {
    assert PostOk(s.db, s.posts[a.p]);
    assert Dense(s.db, s.posts[a.p].path);
  }

  /** An event whose id is not the next one ends every serial log. */
  lemma OldIdIsNotSerial(start: Db, log: seq<Event>, event: Event, all: seq<Event>)
    requires IsSerial(start, log) && log + [event] <= all
    requires event.path in Serial(start, log).counters && event.id != Count(Serial(start, log), event.path)
    ensures !IsSerial(start, all)
  {
    var more := all[|log|..];
    assert all == log + more && more[0] == event;
    if IsSerial(start, all) {
      PrefixIsSerial(start, log, more);
    }
  }

  lemma StaleIsNotSerial(start: Db, s: State, a: Action, log: seq<Event>)
    requires Inv(start, s) && Enabled(s, a) && Stale(s, a) && Step(s, a).log <= log
    ensures !IsSerial(start, log)
  {
    StaleIdIsOld(start, s, a);
    OldIdIsNotSerial(start, s.log, Event.Post(s.posts[a.p].path, s.posts[a.p].data, s.posts[a.p].id), log);
  }

  lemma {:induction false} StaleRunIsNotSerial(start: Db, s: State, run: seq<Action>)
    requires Inv(start, s) && ValidRun(s, run) && !NeverStale(s, run)
    ensures !IsSerial(start, Run(s, run).log)
    decreases |run|
  {
    var r := Step(s, run[0]);
    if Stale(s, run[0]) {
      RunGrowsLog(r, run[1..]);
      StaleIsNotSerial(start, s, run[0], Run(s, run).log);
    } else {
      StepKeepsInv(start, s, run[0]);
      StaleRunIsNotSerial(start, r, run[1..]);
    }
  }

  /** The order in which the writers took effect, with the ids they used, is a serial one
      if and only if no `post` wrote over a counter that had moved. */
  lemma CommitOrderIsSerialIff(start: Db, run: seq<Action>)
    requires WellFormed(start) && ValidRun(Initial(start), run)
    ensures IsSerial(start, Run(Initial(start), run).log) <==> NeverStale(Initial(start), run)
  {
    if NeverStale(Initial(start), run) {
      RunsAreSerializable(start, run);
    } else {
      StaleRunIsNotSerial(start, Initial(start), run);
    }
  }

  // ---- The documents ----

  /** The document that a writer leaves: a `put` its own, a `post` its own with the id added. */
  function DocumentOf(event: Event): Json {
    match event
    case Put(_, _, data, _) => data
    case Post(_, data, id) => if data.Obj? then Obj(data.fields["ID" := Str(ToString(id))]) else data
  }

  function WrittenBy(event: Event, e: string): seq<Json> {
    if event.path == e then [DocumentOf(event)] else []
  }

  /** The documents written to an endpoint, in the order of the log. */
  function WrittenTo(log: seq<Event>, e: string): seq<Json> {
    if log == [] then [] else WrittenBy(log[0], e) + WrittenTo(log[1..], e)
  }

  lemma StoredDocument(db: Db, event: Event)
    requires event.path in db.counters && Dense(db, event.path) && event.id == Count(db, event.path)
    requires event.Post? ==> event.data.Obj?
    ensures DocumentOf(event) == if event.Put? then event.data else WithId(event.data, db.counters[event.path])
  {
  }

  lemma CommitAppendsOne(db: Db, event: Event, e: string)
    requires WellFormed(db) && event.path in DocumentEndpoints(db) && CanCount(db, event.path)
    requires e in DocumentEndpoints(db)
    ensures var t := CommitPut(db, event.path, DocumentOf(event));
            WellFormed(t) && e in DocumentEndpoints(t) && Abs(t)[e] == Abs(db)[e] + WrittenBy(event, e)
  {
    StoreProofs.CommitKeepsWellFormed(db, event.path, DocumentOf(event));
    CommitAppends(db, event.path, DocumentOf(event));
  }

  lemma SerialStepAppends(db: Db, event: Event, e: string)
    requires WellFormed(db) && event.path in DocumentEndpoints(db) && CanCount(db, event.path)
    requires event.id == Count(db, event.path) && e in DocumentEndpoints(db)
    requires event.Put? ==> BranchOfPut(db, event.path).Transaction?
    requires event.Post? ==> event.data.Obj?
    ensures var t := SerialStep(db, event);
            WellFormed(t) && e in DocumentEndpoints(t) && Abs(t)[e] == Abs(db)[e] + WrittenBy(event, e)
  {
    assert Dense(db, event.path);
    StoredDocument(db, event);
    SerialStepIsCommit(db, event);
    CommitAppendsOne(db, event, e);
  }

  lemma {:induction false} SerialHolds(db: Db, log: seq<Event>, e: string)
    requires WellFormed(db) && IsSerial(db, log) && Loggable(db, log) && e in DocumentEndpoints(db)
    ensures var t := Serial(db, log);
            WellFormed(t) && e in DocumentEndpoints(t) && Abs(t)[e] == Abs(db)[e] + WrittenTo(log, e)
    decreases |log|
  {
    if log != [] {
      SerialTail(db, log);
      SerialStepAppends(db, log[0], e);
      SerialHolds(SerialStep(db, log[0]), log[1..], e);
      Associates(Abs(db)[e], WrittenBy(log[0], e), WrittenTo(log[1..], e));
    }
  }

  lemma Associates(a: seq<Json>, b: seq<Json>, c: seq<Json>)
    ensures a + b + c == a + (b + c)
  {
  }

  /** Over every run without a stale `post`: each endpoint ends with the documents it had, followed by
      the documents that clients submitted to it, in the order in which their writers took effect. */
  lemma StoreHoldsSubmitted(start: Db, run: seq<Action>, e: string)
    requires WellFormed(start) && ValidRun(Initial(start), run) && NeverStale(Initial(start), run)
    requires e in DocumentEndpoints(start)
    ensures var s := Run(Initial(start), run);
            && WellFormed(s.db) && e in DocumentEndpoints(s.db)
            && Abs(s.db)[e] == Abs(start)[e] + WrittenTo(s.log, e)
            && forall i :: 0 <= i < |s.log| ==> Submitted(run, s.log[i])
  {
    RunIsLoggable(start, run);
    SerialHolds(start, Run(Initial(start), run).log, e);
    WritesAreSubmitted(start, run);
  }
}
