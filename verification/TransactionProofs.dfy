/**
 Interleaved `put` transactions are serializable, and their ids are dense;
 a `post` is serializable exactly when nobody stepped its counter in between.
 */
module TransactionProofs {
  import opened Keys
  import opened Store
  import opened StoreInvariant
  import opened StoreProofs
  import opened Transactions

  // ---- What a batch does ----

  /** The buffer of a transaction in each of its phases. */
  function BufferAt(txn: Txn): seq<Write> {
    match txn.phase
    case Counted => [SetCounter(txn.path, txn.id + 1)]
    case Stored => [SetCounter(txn.path, txn.id + 1), PutDoc(txn.path, TheKey(txn), txn.data)]
    case Indexed =>
      [SetCounter(txn.path, txn.id + 1), PutDoc(txn.path, TheKey(txn), txn.data), PutDoc(ALL, TheKey(txn), txn.data)]
    case _ => []
  }

  lemma ApplyThree(db: Db, a: Write, b: Write, c: Write)
    ensures ApplyBuffer(db, [a, b, c]) == ApplyWrite(ApplyWrite(ApplyWrite(db, a), b), c)
  {
    var x, y, z := ApplyWrite(db, a), ApplyWrite(ApplyWrite(db, a), b), ApplyWrite(ApplyWrite(ApplyWrite(db, a), b), c);
    assert [a, b, c][1..] == [b, c] && [b, c][1..] == [c] && [c][1..] == [];
    assert ApplyBuffer(z, []) == z;
    assert ApplyBuffer(y, [c]) == z;
    assert ApplyBuffer(x, [b, c]) == z;
  }

  /** A full buffer, applied to a store whose counter is still the one read, is a whole `put`. */
  lemma BufferIsPut(db: Db, txn: Txn)
    requires WellFormed(db) && txn.path in DocumentEndpoints(db) && CanCount(db, txn.path)
    requires BranchOfPut(db, txn.path).Transaction? && txn.id == Count(db, txn.path) && txn.phase == Indexed
    ensures ApplyBuffer(db, BufferAt(txn)) == DoPut(db, txn.path, txn.data).0 == CommitPut(db, txn.path, txn.data)
  {
    PutIsCommit(db, txn.path, txn.data);
    var w := BufferAt(txn);
    ApplyThree(db, w[0], w[1], w[2]);
    assert w == [w[0], w[1], w[2]];
  }

  lemma BatchSetsCounter(db: Db, p: Pending)
    ensures ApplyBuffer(db, PostBatch(p)).counters == db.counters[p.path := ToString(p.id + 1)]
  {
    ApplyThree(db, PostBatch(p)[0], PostBatch(p)[1], PostBatch(p)[2]);
  }

  lemma BatchIsCommit(db: Db, p: Pending)
    requires p.path in db.counters && CanCount(db, p.path) && p.id == Count(db, p.path)
    ensures ApplyBuffer(db, PostBatch(p)) == CommitPut(db, p.path, PostDoc(p))
  {
    ApplyThree(db, PostBatch(p)[0], PostBatch(p)[1], PostBatch(p)[2]);
  }

  lemma FreshBatchIsPost(db: Db, p: Pending)
    requires WellFormed(db) && p.path in DocumentEndpoints(db) && CanCount(db, p.path) && p.data.Obj?
    requires db.counters[p.path] == ToString(p.id)
    ensures p.id == Count(db, p.path)
    ensures ApplyBuffer(db, PostBatch(p)) == DoPost(db, p.path, p.data).0 == CommitPut(db, p.path, PostDoc(p))
  {
    AtoiToString(p.id);
    PostIsCommit(db, p.path, p.data);
    BatchIsCommit(db, p);
  }

  lemma PostSetsCounter(db: Db, path: string, data: Json)
    requires WellFormed(db) && path in DocumentEndpoints(db) && CanCount(db, path) && data.Obj?
    ensures DoPost(db, path, data).0.counters == db.counters[path := ToString(Count(db, path) + 1)]
    ensures db.counters[path] == ToString(Count(db, path))
  {
  }

  lemma ToStringIsInjective(i: nat, j: nat)
    ensures ToString(i) == ToString(j) ==> i == j
  {
    ToIntToString(i);
    ToIntToString(j);
  }

  lemma StaleBatchIsNoPost(db: Db, p: Pending)
    requires WellFormed(db) && p.path in DocumentEndpoints(db) && CanCount(db, p.path) && p.data.Obj?
    requires db.counters[p.path] != ToString(p.id)
    ensures ApplyBuffer(db, PostBatch(p)) != DoPost(db, p.path, p.data).0
  {
    PostSetsCounter(db, p.path, p.data);
    BatchSetsCounter(db, p);
    ToStringIsInjective(p.id + 1, Count(db, p.path) + 1);
    assert ApplyBuffer(db, PostBatch(p)).counters[p.path] != DoPost(db, p.path, p.data).0.counters[p.path];
  }

  /** The batch of a `post` is a whole `post` exactly when the counter is still the one read. */
  lemma BatchIsPostIff(db: Db, p: Pending)
    requires WellFormed(db) && p.path in DocumentEndpoints(db) && CanCount(db, p.path) && p.data.Obj?
    ensures ApplyBuffer(db, PostBatch(p)) == DoPost(db, p.path, p.data).0 <==> db.counters[p.path] == ToString(p.id)
  {
    if db.counters[p.path] == ToString(p.id) {
      FreshBatchIsPost(db, p);
    } else {
      StaleBatchIsNoPost(db, p);
    }
  }

  // ---- The invariant ----

  predicate Holding(phase: Phase) {
    phase == Counted || phase == Stored || phase == Indexed
  }

  /** A transaction that holds its counter has read what the counter still says. */
  ghost predicate TxnOk(db: Db, locks: map<Lock, nat>, t: nat, txn: Txn) {
    && (txn.phase == Begun || Holding(txn.phase) ==>
          txn.path in DocumentEndpoints(db) && BranchOfPut(db, txn.path).Transaction?)
    && (Holding(txn.phase) ==>
          && TheCounter(txn) in locks && locks[TheCounter(txn)] == t
          && CanCount(db, txn.path) && txn.id == Count(db, txn.path))
    && txn.buffer == BufferAt(txn)
  }

  /** Every lock is held by a transaction at work, on its counter or on its one object. */
  ghost predicate LockOk(txns: map<nat, Txn>, l: Lock, t: nat) {
    t in txns && Holding(txns[t].phase) &&
    (l == TheCounter(txns[t]) || l == ObjectLock(txns[t].path, TheKey(txns[t])) ||
     l == ObjectLock(ALL, TheKey(txns[t])))
  }

  ghost predicate PostOk(db: Db, p: Pending) {
    p.path in DocumentEndpoints(db) && p.data.Obj? && p.id < INT_MAX
  }

  ghost predicate TablesOk(db: Db, locks: map<Lock, nat>, txns: map<nat, Txn>) {
    && (forall t :: t in txns ==> TxnOk(db, locks, t, txns[t]))
    && (forall l :: l in locks ==> LockOk(txns, l, locks[l]))
  }

  ghost predicate PostsOk(db: Db, posts: map<nat, Pending>) {
    forall p :: p in posts ==> PostOk(db, posts[p])
  }

  /** Locks, transactions and pending `post`s are in order: this holds whatever happens to the store. */
  ghost predicate LocksOk(s: State) {
    TablesOk(s.db, s.locks, s.txns) && PostsOk(s.db, s.posts)
  }

  /** The store is what the committed writers leave when they run one after the other. */
  ghost predicate StoreOk(start: Db, s: State) {
    WellFormed(s.db) && IsSerial(start, s.log) && s.db == Serial(start, s.log)
  }

  ghost predicate Inv(start: Db, s: State) {
    StoreOk(start, s) && LocksOk(s)
  }

  // ---- Serial logs ----

  lemma {:induction false} SerialSnoc(db: Db, log: seq<Event>, e: Event)
    requires IsSerial(db, log)
    requires var last := Serial(db, log);
             e.path in DocumentEndpoints(last) && CanCount(last, e.path) && e.id == Count(last, e.path)
    ensures IsSerial(db, log + [e]) && Serial(db, log + [e]) == SerialStep(Serial(db, log), e)
    decreases |log|
  {
    if log == [] {
      assert ([] + [e])[1..] == [];
      assert Serial(SerialStep(db, e), []) == SerialStep(db, e);
    } else {
      assert (log + [e])[1..] == log[1..] + [e];
      SerialSnoc(SerialStep(db, log[0]), log[1..], e);
    }
  }

  // ---- Steps that leave the store alone ----

  lemma BeginKeepsTables(db: Db, locks: map<Lock, nat>, txns: map<nat, Txn>, t: nat, path: string, data: Json)
    requires TablesOk(db, locks, txns) && t !in txns
    requires path in DocumentEndpoints(db) && BranchOfPut(db, path).Transaction?
    ensures TablesOk(db, locks, txns[t := Txn(path, data, Begun, 0, [])])
  {
  }

  lemma RollbackKeepsTables(s: State, t: nat)
    requires TablesOk(s.db, s.locks, s.txns) && t in s.txns
    ensures var r := Rollback(s, t); TablesOk(r.db, r.locks, r.txns)
  {
    var r := Rollback(s, t);
    ReleaseKeepsTables(s.db, s.locks, s.txns, t, r.txns[t]);
  }

  /** A transaction that lets go of its locks touches no other. */
  lemma ReleaseKeepsTables(db: Db, locks: map<Lock, nat>, txns: map<nat, Txn>, t: nat, txn: Txn)
    requires TablesOk(db, locks, txns) && txn.buffer == [] && (txn.phase == Committed || txn.phase == RolledBack)
    ensures TablesOk(db, Release(locks, t), txns[t := txn])
  {
    forall u | u in txns && u != t ensures TxnOk(db, Release(locks, t), u, txns[u]) {
      assert TxnOk(db, locks, u, txns[u]);
    }
    forall l | l in Release(locks, t) ensures LockOk(txns[t := txn], l, locks[l]) {
      assert LockOk(txns, l, locks[l]);
    }
  }

  /** A transaction that takes a free lock and moves on keeps what it had. */
  lemma AdvanceKeepsTables(db: Db, locks: map<Lock, nat>, txns: map<nat, Txn>, t: nat, txn: Txn, l: Lock)
    requires TablesOk(db, locks, txns) && t in txns
    requires l in locks ==> locks[l] == t
    requires Holding(txn.phase) && txn.path == txns[t].path && (Holding(txns[t].phase) ==> txn.id == txns[t].id)
    requires TxnOk(db, locks[l := t], t, txn) && LockOk(txns[t := txn], l, t)
    ensures TablesOk(db, locks[l := t], txns[t := txn])
  {
    forall u | u in txns && u != t ensures TxnOk(db, locks[l := t], u, txns[u]) {
      assert TxnOk(db, locks, u, txns[u]);
    }
    forall m | m in locks && m != l ensures LockOk(txns[t := txn], m, locks[m]) {
      assert LockOk(txns, m, locks[m]);
    }
  }

  lemma GetForUpdateKeepsTables(s: State, t: nat)
    requires TablesOk(s.db, s.locks, s.txns) && Enabled(s, GetForUpdate(t, true))
    ensures var r := DoGetForUpdate(s, t); TablesOk(r.db, r.locks, r.txns)
  {
    assert TxnOk(s.db, s.locks, t, s.txns[t]);
    var r := DoGetForUpdate(s, t);
    AdvanceKeepsTables(s.db, s.locks, s.txns, t, r.txns[t], TheCounter(s.txns[t]));
  }

  /** The buffer grows by the write that belongs to the next phase. */
  lemma NextTxnOk(db: Db, locks: map<Lock, nat>, t: nat, txn: Txn, l: Lock)
    requires TxnOk(db, locks, t, txn) && l.ObjectLock?
    ensures txn.phase == Counted ==>
              TxnOk(db, locks[l := t], t,
                    txn.(phase := Stored, buffer := txn.buffer + [PutDoc(txn.path, TheKey(txn), txn.data)]))
    ensures txn.phase == Stored ==>
              TxnOk(db, locks[l := t], t,
                    txn.(phase := Indexed, buffer := txn.buffer + [PutDoc(ALL, TheKey(txn), txn.data)]))
  {
  }

  lemma PutObjectKeepsTables(s: State, t: nat)
    requires TablesOk(s.db, s.locks, s.txns) && Enabled(s, PutObject(t, true))
    ensures var r := DoPutObject(s, t); TablesOk(r.db, r.locks, r.txns)
  {
    var txn := s.txns[t];
    NextTxnOk(s.db, s.locks, t, txn, ObjectLock(txn.path, TheKey(txn)));
    var r := DoPutObject(s, t);
    AdvanceKeepsTables(s.db, s.locks, s.txns, t, r.txns[t], ObjectLock(txn.path, TheKey(txn)));
  }

  lemma PutIndexKeepsTables(s: State, t: nat)
    requires TablesOk(s.db, s.locks, s.txns) && Enabled(s, PutIndex(t, true))
    ensures var r := DoPutIndex(s, t); TablesOk(r.db, r.locks, r.txns)
  {
    var txn := s.txns[t];
    NextTxnOk(s.db, s.locks, t, txn, ObjectLock(ALL, TheKey(txn)));
    var r := DoPutIndex(s, t);
    AdvanceKeepsTables(s.db, s.locks, s.txns, t, r.txns[t], ObjectLock(ALL, TheKey(txn)));
  }

  // ---- Steps that write ----

  /** Stepping the counter of one endpoint does not concern transactions on others. */
  lemma CounterStepKeepsTables(db: Db, r: Db, locks: map<Lock, nat>, txns: map<nat, Txn>, path: string)
    requires TablesOk(db, locks, txns) && CounterLock(path) !in locks
    requires r.counters.Keys == db.counters.Keys
    requires forall e :: e in db.counters && e != path ==> r.counters[e] == db.counters[e]
    ensures TablesOk(r, locks, txns)
  {
  }

  lemma CounterStepKeepsPosts(db: Db, r: Db, posts: map<nat, Pending>)
    requires PostsOk(db, posts) && r.counters.Keys == db.counters.Keys
    ensures PostsOk(r, posts)
  {
  }

  /** One more event at the end of the log. */
  lemma StoreSnoc(start: Db, s: State, e: Event, doc: Json)
    requires StoreOk(start, s) && e.path in DocumentEndpoints(s.db) && CanCount(s.db, e.path) &&
             e.id == Count(s.db, e.path)
    requires SerialStep(s.db, e) == CommitPut(s.db, e.path, doc)
    ensures IsSerial(start, s.log + [e]) && Serial(start, s.log + [e]) == SerialStep(s.db, e)
    ensures WellFormed(CommitPut(s.db, e.path, doc))
  {
    CommitKeepsWellFormed(s.db, e.path, doc);
    SerialSnoc(start, s.log, e);
  }

  lemma CommitSetsCounter(s: State, t: nat)
    requires t in s.txns && s.txns[t].phase == Indexed && TxnOk(s.db, s.locks, t, s.txns[t])
    ensures DoCommit(s, t).db.counters == s.db.counters[s.txns[t].path := ToString(s.txns[t].id + 1)]
  {
    var w := BufferAt(s.txns[t]);
    ApplyThree(s.db, w[0], w[1], w[2]);
    assert w == [w[0], w[1], w[2]];
  }

  lemma CommitIsSerial(start: Db, s: State, t: nat)
    requires StoreOk(start, s) && t in s.txns && s.txns[t].phase == Indexed && TxnOk(s.db, s.locks, t, s.txns[t])
    ensures StoreOk(start, DoCommit(s, t))
    ensures DoCommit(s, t).db == CommitPut(s.db, s.txns[t].path, s.txns[t].data)
    ensures DoCommit(s, t).db.counters.Keys == s.db.counters.Keys
  {
    var txn := s.txns[t];
    BufferIsPut(s.db, txn);
    StoreSnoc(start, s, Event.Put(t, txn.path, txn.data, txn.id), txn.data);
  }

  lemma CommitKeepsTables(s: State, t: nat, r: Db)
    requires TablesOk(s.db, s.locks, s.txns) && Enabled(s, Action.Commit(t, true))
    requires r.counters.Keys == s.db.counters.Keys
    requires forall e :: e in s.db.counters && e != s.txns[t].path ==> r.counters[e] == s.db.counters[e]
    ensures var u := DoCommit(s, t); TablesOk(r, u.locks, u.txns)
  {
    var u := DoCommit(s, t);
    assert TxnOk(s.db, s.locks, t, s.txns[t]);
    ReleaseKeepsTables(s.db, s.locks, s.txns, t, u.txns[t]);
    CounterStepKeepsTables(s.db, r, u.locks, u.txns, s.txns[t].path);
  }

  lemma FreshPostIsSerial(start: Db, s: State, p: nat)
    requires StoreOk(start, s) && IsFreshPost(s, p) && PostOk(s.db, s.posts[p])
    ensures StoreOk(start, DoPostWrite(s, p))
  {
    var post := s.posts[p];
    AtoiToString(post.id);
    FreshBatchIsPost(s.db, post);
    StoreSnoc(start, s, Event.Post(post.path, post.data, post.id), PostDoc(post));
  }

  lemma PostSetsOneCounter(s: State, p: nat)
    requires p in s.posts && s.posts[p].path in s.db.counters
    ensures DoPostWrite(s, p).db.counters == s.db.counters[s.posts[p].path := ToString(s.posts[p].id + 1)]
    ensures DoPostWrite(s, p).db.counters.Keys == s.db.counters.Keys
  {
    BatchSetsCounter(s.db, s.posts[p]);
  }

  lemma PostKeepsOthers(s: State, p: nat)
    requires LocksOk(s) && p in s.posts && Unlocked(s, CounterLock(s.posts[p].path))
    ensures LocksOk(DoPostWrite(s, p))
  {
    var r := DoPostWrite(s, p);
    assert PostOk(s.db, s.posts[p]);
    PostSetsOneCounter(s, p);
    CounterStepKeepsTables(s.db, r.db, s.locks, s.txns, s.posts[p].path);
    CounterStepKeepsPosts(s.db, r.db, r.posts);
  }

  /** The steps that change the store. */
  predicate Writes(a: Action) {
    (a.Commit? || a.PostWrite?) && a.ok
  }

  lemma QuietKeepsStore(s: State, a: Action)
    requires Enabled(s, a) && !Writes(a)
    ensures Step(s, a).db == s.db && Step(s, a).log == s.log
    ensures !a.PostRead? ==> forall p :: p in Step(s, a).posts ==> p in s.posts && Step(s, a).posts[p] == s.posts[p]
  {
  }

  lemma QuietKeepsTables(s: State, a: Action)
    requires LocksOk(s) && Enabled(s, a) && !Writes(a)
    ensures LocksOk(Step(s, a))
  {
    match a {
      case Begin(t, path, data) => BeginKeepsTables(s.db, s.locks, s.txns, t, path, data);
      case GetForUpdate(t, ok) => if ok { GetForUpdateKeepsTables(s, t); } else { RollbackKeepsTables(s, t); }
      case PutObject(t, ok) => if ok { PutObjectKeepsTables(s, t); } else { RollbackKeepsTables(s, t); }
      case PutIndex(t, ok) => if ok { PutIndexKeepsTables(s, t); } else { RollbackKeepsTables(s, t); }
      case Commit(t, ok) => RollbackKeepsTables(s, t);
      case PostRead(p, path, data) =>
      case PostWrite(p, ok) =>
    }
  }

  lemma WriteKeepsTables(s: State, a: Action)
    requires LocksOk(s) && Enabled(s, a) && Writes(a)
    ensures LocksOk(Step(s, a))
  {
    if a.Commit? {
      assert TxnOk(s.db, s.locks, a.t, s.txns[a.t]);
      CommitSetsCounter(s, a.t);
      CommitKeepsTables(s, a.t, Step(s, a).db);
      CounterStepKeepsPosts(s.db, Step(s, a).db, s.posts);
    } else {
      assert PostOk(s.db, s.posts[a.p]);
      PostKeepsOthers(s, a.p);
    }
  }

  /** Every step, stale or not, keeps locks, buffers and ids in order. */
  lemma StepKeepsLocks(s: State, a: Action)
    requires LocksOk(s) && Enabled(s, a)
    ensures LocksOk(Step(s, a))
  {
    if Writes(a) {
      WriteKeepsTables(s, a);
    } else {
      QuietKeepsTables(s, a);
    }
  }

  lemma StepKeepsStore(start: Db, s: State, a: Action)
    requires Inv(start, s) && Enabled(s, a) && !Stale(s, a)
    ensures StoreOk(start, Step(s, a))
  {
    if !Writes(a) {
      QuietKeepsStore(s, a);
    } else if a.Commit? {
      assert TxnOk(s.db, s.locks, a.t, s.txns[a.t]);
      CommitIsSerial(start, s, a.t);
    } else {
      assert PostOk(s.db, s.posts[a.p]);
      FreshPostIsSerial(start, s, a.p);
    }
  }

  /** Every step keeps the store serial as well, unless a `post` writes over a counter that has moved. */
  lemma StepKeepsInv(start: Db, s: State, a: Action)
    requires Inv(start, s) && Enabled(s, a) && !Stale(s, a)
    ensures Inv(start, Step(s, a))
  {
    StepKeepsLocks(s, a);
    StepKeepsStore(start, s, a);
  }
}
