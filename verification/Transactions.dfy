/**
 Concurrent writers.

 Any number of `put` transactions run interleaved, each through its own steps: begin, read the
 counter for update, buffer the object, buffer the index entry, commit.  Every step but the first
 can fail, and a failure rolls the transaction back.  `post` takes two steps that are not one
 transaction: it reads the counter, and later writes one batch.
 */
module Transactions {
  import opened Keys
  import opened Store
  import opened StoreInvariant

  datatype Lock = CounterLock(path: string) | ObjectLock(family: string, key: string)

  datatype Write = SetCounter(path: string, next: nat) | PutDoc(family: string, key: string, doc: Json)

  datatype Phase = Begun | Counted | Stored | Indexed | Committed | RolledBack

  datatype Txn = Txn(path: string, data: Json, phase: Phase, id: nat, buffer: seq<Write>)

  /** A `post` that has read its counter and not written yet. */
  datatype Pending = Pending(path: string, data: Json, id: nat)

  /** What took effect, in the order in which it did, and the id it used. */
  datatype Event = Put(txn: nat, path: string, data: Json, id: nat) | Post(path: string, data: Json, id: nat)

  datatype State = State(db: Db, locks: map<Lock, nat>, txns: map<nat, Txn>, posts: map<nat, Pending>, log: seq<Event>)

  datatype Action =
    | Begin(t: nat, path: string, data: Json)
    | GetForUpdate(t: nat, ok: bool)
    | PutObject(t: nat, ok: bool)
    | PutIndex(t: nat, ok: bool)
    | Commit(t: nat, ok: bool)
    | PostRead(p: nat, path: string, data: Json)
    | PostWrite(p: nat, ok: bool)

  // ---- The store's side: locks and buffers ----

  predicate Free(s: State, l: Lock, t: nat) {
    l in s.locks ==> s.locks[l] == t
  }

  predicate Unlocked(s: State, l: Lock) {
    l !in s.locks
  }

  function Release(locks: map<Lock, nat>, t: nat): map<Lock, nat> {
    map l | l in locks && locks[l] != t :: locks[l]
  }

  function ApplyWrite(db: Db, w: Write): Db {
    match w
    case SetCounter(path, next) => db.(counters := db.counters[path := ToString(next)])
    case PutDoc(family, key, doc) => db.(families := PutIn(db.families, family, key, doc))
  }

  function ApplyBuffer(db: Db, buffer: seq<Write>): Db
    decreases |buffer|
  {
    if buffer == [] then db else ApplyBuffer(ApplyWrite(db, buffer[0]), buffer[1..])
  }

  // ---- The steps ----

  predicate Active(s: State, t: nat, phase: Phase) {
    t in s.txns && s.txns[t].phase == phase
  }

  function TheCounter(txn: Txn): Lock {
    CounterLock(txn.path)
  }

  function TheKey(txn: Txn): string {
    ObjectKey(txn.path, txn.id)
  }

  /** A write goes ahead only if its lock is not held by another transaction. */
  ghost predicate Enabled(s: State, a: Action) {
    match a
    case Begin(t, path, _) =>
      t !in s.txns && path in DocumentEndpoints(s.db) && BranchOfPut(s.db, path).Transaction?
    case GetForUpdate(t, ok) =>
      Active(s, t, Begun) &&
      (ok ==> s.txns[t].path in s.db.counters && CanCount(s.db, s.txns[t].path) && Free(s, TheCounter(s.txns[t]), t))
    case PutObject(t, ok) => Active(s, t, Counted) && (ok ==> Free(s, ObjectLock(s.txns[t].path, TheKey(s.txns[t])), t))
    case PutIndex(t, ok) => Active(s, t, Stored) && (ok ==> Free(s, ObjectLock(ALL, TheKey(s.txns[t])), t))
    case Commit(t, ok) => Active(s, t, Indexed)
    case PostRead(p, path, data) =>
      p !in s.posts && path in DocumentEndpoints(s.db) && CanCount(s.db, path) && data.Obj?
    case PostWrite(p, ok) =>
      p in s.posts && (ok ==> Unlocked(s, CounterLock(s.posts[p].path)))
  }

  function Rollback(s: State, t: nat): State
    requires t in s.txns
  {
    s.(txns := s.txns[t := s.txns[t].(phase := RolledBack, buffer := [])], locks := Release(s.locks, t))
  }

  function DoGetForUpdate(s: State, t: nat): State
    requires t in s.txns && s.txns[t].path in s.db.counters
  {
    var txn := s.txns[t];
    var id := Atoi(s.db.counters[txn.path]);
    s.(locks := s.locks[TheCounter(txn) := t],
       txns := s.txns[t := txn.(phase := Counted, id := id, buffer := [SetCounter(txn.path, id + 1)])])
  }

  function DoPutObject(s: State, t: nat): State
    requires t in s.txns
  {
    var txn := s.txns[t];
    s.(locks := s.locks[ObjectLock(txn.path, TheKey(txn)) := t],
       txns := s.txns[t := txn.(phase := Stored, buffer := txn.buffer + [PutDoc(txn.path, TheKey(txn), txn.data)])])
  }

  function DoPutIndex(s: State, t: nat): State
    requires t in s.txns
  {
    var txn := s.txns[t];
    s.(locks := s.locks[ObjectLock(ALL, TheKey(txn)) := t],
       txns := s.txns[t := txn.(phase := Indexed, buffer := txn.buffer + [PutDoc(ALL, TheKey(txn), txn.data)])])
  }

  function DoCommit(s: State, t: nat): State
    requires t in s.txns
  {
    var txn := s.txns[t];
    s.(db := ApplyBuffer(s.db, txn.buffer), locks := Release(s.locks, t),
       txns := s.txns[t := txn.(phase := Committed, buffer := [])],
       log := s.log + [Event.Put(t, txn.path, txn.data, txn.id)])
  }

  /** The document of a `post` carries the id that was read. */
  function PostDoc(p: Pending): Json {
    if p.data.Obj? then WithId(p.data, ToString(p.id)) else p.data
  }

  /** The batch of a `post`, with the id that was read. */
  function PostBatch(p: Pending): seq<Write> {
    [PutDoc(p.path, ObjectKey(p.path, p.id), PostDoc(p)), PutDoc(ALL, ObjectKey(p.path, p.id), PostDoc(p)),
     SetCounter(p.path, p.id + 1)]
  }

  function DoPostWrite(s: State, p: nat): State
    requires p in s.posts
  {
    var post := s.posts[p];
    s.(db := ApplyBuffer(s.db, PostBatch(post)), posts := s.posts - {p},
       log := s.log + [Event.Post(post.path, post.data, post.id)])
  }

  ghost function Step(s: State, a: Action): State
    requires Enabled(s, a)
  {
    match a
    case Begin(t, path, data) => s.(txns := s.txns[t := Txn(path, data, Begun, 0, [])])
    case GetForUpdate(t, ok) => if ok then DoGetForUpdate(s, t) else Rollback(s, t)
    case PutObject(t, ok) => if ok then DoPutObject(s, t) else Rollback(s, t)
    case PutIndex(t, ok) => if ok then DoPutIndex(s, t) else Rollback(s, t)
    case Commit(t, ok) => if ok then DoCommit(s, t) else Rollback(s, t)
    case PostRead(p, path, data) => s.(posts := s.posts[p := Pending(path, data, Atoi(s.db.counters[path]))])
    case PostWrite(p, ok) => if ok then DoPostWrite(s, p) else s.(posts := s.posts - {p})
  }

  /** The counter has not moved since the `post` read it. */
  predicate IsFreshPost(s: State, p: nat) {
    p in s.posts && s.posts[p].path in s.db.counters && s.db.counters[s.posts[p].path] == ToString(s.posts[p].id)
  }

  /** A write of a `post` takes effect on a counter that has moved. */
  predicate Stale(s: State, a: Action) {
    a.PostWrite? && a.ok && !IsFreshPost(s, a.p)
  }

  ghost predicate ValidRun(s: State, run: seq<Action>)
    decreases |run|
  {
    run == [] || (Enabled(s, run[0]) && ValidRun(Step(s, run[0]), run[1..]))
  }

  ghost function Run(s: State, run: seq<Action>): State
    requires ValidRun(s, run)
    decreases |run|
  {
    if run == [] then s else Run(Step(s, run[0]), run[1..])
  }

  ghost predicate NeverStale(s: State, run: seq<Action>)
    requires ValidRun(s, run)
    decreases |run|
  {
    run == [] || (!Stale(s, run[0]) && NeverStale(Step(s, run[0]), run[1..]))
  }

  function Initial(db: Db): State {
    State(db, map[], map[], map[], [])
  }

  // ---- The serial store ----

  /** A whole `put` or `post` on its own. */
  function SerialStep(db: Db, e: Event): Db
    requires CanCount(db, e.path)
  {
    if e.Put? then DoPut(db, e.path, e.data).0 else DoPost(db, e.path, e.data).0
  }

  /** Each event, in its turn, finds its endpoint and uses the id that is next there. */
  ghost predicate IsSerial(db: Db, log: seq<Event>)
    decreases |log|
  {
    log == [] ||
    (log[0].path in DocumentEndpoints(db) && CanCount(db, log[0].path) && log[0].id == Count(db, log[0].path) &&
     IsSerial(SerialStep(db, log[0]), log[1..]))
  }

  ghost function Serial(db: Db, log: seq<Event>): Db
    requires IsSerial(db, log)
    decreases |log|
  {
    if log == [] then db else Serial(SerialStep(db, log[0]), log[1..])
  }
}
