/**
 The promises of the document store: it implements a log of documents per endpoint, its
 catalogue never disagrees with itself, and its index misses nothing.
 */
module StoreTheorems {
  import opened Keys
  import opened Store
  import opened StoreInvariant
  import opened StoreProofs
  import Validations

  // ---- The abstract store: for each endpoint, the documents in the order they came ----

  type Abstract = map<string, seq<Json>>

  ghost function Log(db: Db, e: string): (log: seq<Json>)
    requires e in db.counters && Dense(db, e)
    ensures |log| == Count(db, e)
    ensures forall i :: 0 <= i < |log| ==> log[i] == FamilyOf(db, e)[ObjectKey(e, i)]
  {
    assert forall i :: 0 <= i < Count(db, e) ==> ObjectKey(e, i) in FamilyOf(db, e);
    seq(Count(db, e), i requires 0 <= i < Count(db, e) => FamilyOf(db, e)[ObjectKey(e, i)])
  }

  ghost function Abs(db: Db): (a: Abstract)
    requires DenseOk(db)
    ensures a.Keys == DocumentEndpoints(db)
    ensures forall e :: e in a ==> Dense(db, e) && a[e] == Log(db, e)
  {
    map e | e in DocumentEndpoints(db) :: (assert Dense(db, e); Log(db, e))
  }

  /** The family in which a log is kept. */
  ghost function ToFamily(e: string, log: seq<Json>): (family: Family)
    ensures family.Keys == ObjectKeys(e, |log|)
    decreases |log|
  {
    if log == [] then map[] else
      var n := |log| - 1;
      ObjectKeysSnoc(e, n);
      ToFamily(e, log[..n])[ObjectKey(e, n) := log[n]]
  }

  lemma {:induction false} ToFamilyAt(e: string, log: seq<Json>, i: nat)
    requires i < |log|
    ensures ObjectKey(e, i) in ToFamily(e, log) && ToFamily(e, log)[ObjectKey(e, i)] == log[i]
    decreases |log|
  {
    var n := |log| - 1;
    ObjectKeysSnoc(e, n);
    if i < n {
      ToFamilyAt(e, log[..n], i);
      assert ObjectKey(e, i) in ObjectKeys(e, n);
    }
  }

  /** A dense endpoint's family holds its log and nothing else. */
  lemma FamilyIsLog(db: Db, e: string)
    requires e in db.counters && Dense(db, e)
    ensures FamilyOf(db, e) == ToFamily(e, Log(db, e))
  {
    var log := Log(db, e);
    forall k | k in FamilyOf(db, e) ensures FamilyOf(db, e)[k] == ToFamily(e, log)[k] {
      var i :| 0 <= i < Count(db, e) && k == ObjectKey(e, i);
      ToFamilyAt(e, log, i);
    }
  }

  /** The key is that of a document in one of the logs. */
  ghost predicate IsObject(a: Abstract, key: string) {
    exists e, i: nat :: e in a && i < |a[e]| && ObjectKey(e, i) == key
  }

  ghost function ObjectAt(a: Abstract, key: string): (doc: Json)
    requires IsObject(a, key)
    ensures exists e, i: nat :: e in a && i < |a[e]| && ObjectKey(e, i) == key && doc == a[e][i]
  {
    var e, i: nat :| e in a && i < |a[e]| && ObjectKey(e, i) == key;
    a[e][i]
  }

  /** A key is that of one document only. */
  lemma ObjectAtKey(a: Abstract, e: string, i: nat)
    requires e in a && i < |a[e]|
    ensures IsObject(a, ObjectKey(e, i)) && ObjectAt(a, ObjectKey(e, i)) == a[e][i]
  {
    var key := ObjectKey(e, i);
    assert IsObject(a, key);
    var f, j: nat :| f in a && j < |a[f]| && ObjectKey(f, j) == key && ObjectAt(a, key) == a[f][j];
    ObjectKeyIsInjective(e, i, f, j);
  }

  /** All documents of an endpoint, in the order of their keys. */
  ghost function ListLog(a: Abstract, path: string): Response
    requires path in a
  {
    Documents(Listing(ToFamily(path, a[path])))
  }

  ghost function LookUp(a: Abstract, path: string): Response {
    if path in a then ListLog(a, path)
    else if IsObject(a, path) then Found(ObjectAt(a, path))
    else Missing
  }

  /** What each operation means: append, forget, list in the order of the keys, look up. */
  ghost function AbsApply(a: Abstract, op: Op): (Abstract, Response) {
    match op
    case Add(path, _) => (a[path := []], Done)
    case Delete(path) => if path in a then (a - {path}, Done) else (a, Failed(NotAnEndpoint))
    case Post(path, data) =>
      if path !in a then (a, Ignored)
      else if !data.Obj? then (a, Failed(NotAnObject))
      else
        var doc := Obj(data.fields["ID" := Str(ToString(|a[path]|))]);
        (a[path := a[path] + [doc]], Created(doc))
    case Put(path, data) =>
      (if path in a && Validations.Sanitized(path) in a then a[path := a[path] + [data]] else a, Done)
    case Get(path) => (a, LookUp(a, path))
    case GetAll(path) => (a, if path in a then ListLog(a, path) else Failed(NoHandle))
    case _ => (a, Done)
  }

  lemma DocumentEndpointIff(db: Db, path: string)
    requires WellFormed(db) && Unreserved(path)
    ensures path in db.counters <==> path in DocumentEndpoints(db)
    ensures path in db.handles <==> path in DocumentEndpoints(db)
  {
    SystemNamesDiffer();
  }

  lemma SameLog(db: Db, t: Db, e: string)
    requires e in db.counters && Dense(db, e) && e in t.counters
    requires t.counters[e] == db.counters[e] && FamilyOf(t, e) == FamilyOf(db, e)
    ensures Dense(t, e) && Log(t, e) == Log(db, e)
  {
  }

  lemma CommitAppendsToLog(db: Db, e: string, doc: Json)
    requires WellFormed(db) && e in DocumentEndpoints(db) && CanCount(db, e)
    ensures var t := CommitPut(db, e, doc); Dense(db, e) && Dense(t, e) && Log(t, e) == Log(db, e) + [doc]
  {
    WellFormedEndpoint(db, e);
    StoreObjectEffect(db, e, ObjectKey(e, Count(db, e)), doc);
    AtoiToString(Count(db, e) + 1);
    ObjectKeysSnoc(e, Count(db, e));
    LogSnoc(db, CommitPut(db, e, doc), e, doc);
  }

  lemma CommitLeavesLog(db: Db, e: string, doc: Json, f: string)
    requires WellFormed(db) && e in DocumentEndpoints(db) && CanCount(db, e) && f in DocumentEndpoints(db) && f != e
    ensures var t := CommitPut(db, e, doc); Dense(db, f) && Dense(t, f) && Log(t, f) == Log(db, f)
  {
  }

  /** All logs stay as they are, but for one that is made or grows. */
  lemma OneLogChanges(db: Db, t: Db, e: string, log: seq<Json>)
    requires DenseOk(db) && DenseOk(t) && DocumentEndpoints(t) == DocumentEndpoints(db) + {e}
    requires Dense(t, e) && Log(t, e) == log
    requires forall f :: f in DocumentEndpoints(db) && f != e ==> Dense(db, f) && Dense(t, f) && Log(t, f) == Log(db, f)
    ensures Abs(t) == Abs(db)[e := log]
  {
  }

  lemma CommitAppends(db: Db, e: string, doc: Json)
    requires WellFormed(db) && e in DocumentEndpoints(db) && CanCount(db, e)
    requires DenseOk(CommitPut(db, e, doc))
    ensures Abs(CommitPut(db, e, doc)) == Abs(db)[e := Abs(db)[e] + [doc]]
  {
    var t := CommitPut(db, e, doc);
    assert DocumentEndpoints(t) == DocumentEndpoints(db);
    CommitAppendsToLog(db, e, doc);
    forall f | f in DocumentEndpoints(db) && f != e
      ensures Dense(db, f) && Dense(t, f) && Log(t, f) == Log(db, f)
    {
      CommitLeavesLog(db, e, doc, f);
    }
    OneLogChanges(db, t, e, Log(db, e) + [doc]);
  }

  lemma LogSnoc(db: Db, t: Db, e: string, doc: Json)
    requires e in db.counters && Dense(db, e) && e in t.counters && Dense(t, e)
    requires Count(t, e) == Count(db, e) + 1
    requires FamilyOf(t, e) == FamilyOf(db, e)[ObjectKey(e, Count(db, e)) := doc]
    ensures Log(t, e) == Log(db, e) + [doc]
  {
    var n := Count(db, e);
    ObjectKeysSnoc(e, n);
    forall i | 0 <= i < n ensures Log(t, e)[i] == Log(db, e)[i] {
      assert ObjectKey(e, i) in ObjectKeys(e, n);
    }
  }

  lemma FramedLogs(db: Db, t: Db)
    requires DenseOk(db) && DenseOk(t) && DocumentEndpoints(t) <= DocumentEndpoints(db)
    requires forall e :: e in DocumentEndpoints(t) ==>
               t.counters[e] == db.counters[e] && FamilyOf(t, e) == FamilyOf(db, e)
    ensures Abs(t) == map e | e in DocumentEndpoints(t) :: Abs(db)[e]
  {
  }

  lemma SameLogs(db: Db, t: Db)
    requires DenseOk(db) && DenseOk(t) && t.counters == db.counters
    requires forall e :: e in DocumentEndpoints(db) ==> FamilyOf(t, e) == FamilyOf(db, e)
    ensures Abs(t) == Abs(db)
  {
  }

  // ---- Refinement ----

  /** Answers that have a meaning in the logs.  `get` of an endpoint or of a document always has one;
      `get` of anything else has one where the index holds no more than the endpoints do. */
  ghost predicate Observable(db: Db, op: Op)
    requires DenseOk(db)
  {
    match op
    case Get(path) => path in Abs(db) || IsObject(Abs(db), path) || (Unreserved(path) && IndexExact(db))
    case GetAll(path) => Unreserved(path)
    case _ => true
  }

  ghost predicate Refines(db: Db, op: Op)
    requires WellFormed(db) && Allowed(db, op)
  {
    var (t, response) := Apply(db, op);
    var (a, expected) := AbsApply(Abs(db), op);
    WellFormed(t) && Abs(t) == a && (Observable(db, op) ==> response == expected)
  }

  /** `put` to an endpoint whose name ends in a slash looks for the name without it first. */
  lemma PutBranches(db: Db, path: string)
    requires WellFormed(db) && Unreserved(path)
    ensures BranchOfPut(db, path).Transaction? <==> path in Abs(db) && Validations.Sanitized(path) in Abs(db)
  {
    var short := Validations.Sanitized(path);
    assert short <= path;
    DocumentEndpointIff(db, path);
    DocumentEndpointIff(db, short);
  }

  lemma PostRefines(db: Db, path: string, data: Json)
    requires WellFormed(db) && Allowed(db, Post(path, data))
    ensures Refines(db, Post(path, data))
  {
    OpKeepsWellFormed(db, Post(path, data));
    DocumentEndpointIff(db, path);
    if path in db.counters && data.Obj? {
      PostIsCommit(db, path, data);
      CommitAppends(db, path, WithId(data, db.counters[path]));
    }
  }

  lemma IndexWriteIsInvisible(db: Db, path: string, data: Json)
    requires WellFormed(db)
    requires DenseOk(db.(families := PutIn(db.families, ALL, path, data)))
    ensures Abs(db.(families := PutIn(db.families, ALL, path, data))) == Abs(db)
  {
    SystemNamesAreNotEndpoints(db);
    SameLogs(db, db.(families := PutIn(db.families, ALL, path, data)));
  }

  lemma PutRefines(db: Db, path: string, data: Json)
    requires WellFormed(db) && Allowed(db, Put(path, data))
    ensures Refines(db, Put(path, data))
  {
    OpKeepsWellFormed(db, Put(path, data));
    DocumentEndpointIff(db, path);
    PutBranches(db, path);
    match BranchOfPut(db, path) {
      case NoSuchPath =>
      case Transaction =>
        PutIsCommit(db, path, data);
        CommitAppends(db, path, data);
      case IndexOnly =>
        IndexWriteIsInvisible(db, path, data);
    }
  }

  lemma AddMakesLog(db: Db, path: string, now: int)
    requires WellFormed(db) && Allowed(db, Add(path, now)) && DenseOk(DoAddEndpoint(db, path, now))
    ensures Abs(DoAddEndpoint(db, path, now)) == Abs(db)[path := []]
  {
    var t := DoAddEndpoint(db, path, now);
    AddEffect(db, path, now);
    SystemNamesDiffer();
    AtoiToString(0);
    assert DocumentEndpoints(t) == DocumentEndpoints(db) + {path};
    assert Dense(t, path);
    SystemNamesAreNotEndpoints(db);
    forall f | f in DocumentEndpoints(db) && f != path
      ensures Dense(db, f) && Dense(t, f) && Log(t, f) == Log(db, f)
    {
      SameLog(db, t, f);
    }
    OneLogChanges(db, t, path, []);
  }

  lemma AddRefines(db: Db, path: string, now: int)
    requires WellFormed(db) && Allowed(db, Add(path, now))
    ensures Refines(db, Add(path, now))
  {
    AddKeepsWellFormed(db, path, now);
    AddMakesLog(db, path, now);
  }

  lemma OneLogGoes(db: Db, t: Db, path: string)
    requires DenseOk(db) && DenseOk(t) && path in DocumentEndpoints(db) && ENDPOINTS !in Endpoints(db)
    requires t.counters == db.counters - {path}
    requires forall n :: n != path && n != ENDPOINTS ==> FamilyOf(t, n) == FamilyOf(db, n)
    ensures Abs(t) == Abs(db) - {path}
  {
    FramedLogs(db, t);
  }

  lemma DeleteForgetsLog(db: Db, path: string)
    requires WellFormed(db) && path in db.counters && Unreserved(path) && DenseOk(DoDeleteEndpoint(db, path).0)
    ensures Abs(DoDeleteEndpoint(db, path).0) == Abs(db) - {path}
  {
    WellFormedEndpoint(db, path);
    SystemNamesAreNotEndpoints(db);
    DeleteEffect(db, path);
    OneLogGoes(db, DoDeleteEndpoint(db, path).0, path);
  }

  lemma DeleteRefines(db: Db, path: string)
    requires WellFormed(db) && Allowed(db, Delete(path))
    ensures Refines(db, Delete(path))
  {
    DocumentEndpointIff(db, path);
    if path in db.counters {
      DeleteKeepsWellFormed(db, path);
      DeleteForgetsLog(db, path);
      WellFormedEndpoint(db, path);
    }
  }

  /** `get` of a document's key finds that document, whatever else the index holds. */
  lemma GetFindsObject(db: Db, e: string, i: nat)
    requires WellFormed(db) && e in DocumentEndpoints(db) && i < Count(db, e)
    ensures ObjectKey(e, i) !in db.counters && DoGet(db, ObjectKey(e, i)) == Found(Abs(db)[e][i])
  {
    assert Dense(db, e) && Indexed(db, e);
    assert ObjectKey(e, i) in FamilyOf(db, e);
    ObjectsAreNotCounters(db, e, ObjectKey(e, i));
    WellFormedEndpointNames(db, e);
    SystemNamesDiffer();
  }

  lemma GetFindsObjectAt(db: Db, key: string)
    requires WellFormed(db) && IsObject(Abs(db), key)
    ensures key !in db.counters && DoGet(db, key) == Found(ObjectAt(Abs(db), key))
  {
    var a := Abs(db);
    var e, i: nat :| e in a && i < |a[e]| && ObjectKey(e, i) == key && ObjectAt(a, key) == a[e][i];
    GetFindsObject(db, e, i);
  }

  /** What is live and not part of the system is a document in a log. */
  lemma LiveIsObject(db: Db, key: string)
    requires WellFormed(db) && Unreserved(key) && IsLive(db, key)
    ensures IsObject(Abs(db), key)
  {
    var e :| e in Endpoints(db) && key in FamilyOf(db, e);
    UnreservedIsForeign(key);
    assert e in DocumentEndpoints(db) && Dense(db, e);
    var i :| 0 <= i < Count(db, e) && key == ObjectKey(e, i);
    assert e in Abs(db) && i < |Abs(db)[e]|;
  }

  lemma GetOfNothing(db: Db, key: string)
    requires WellFormed(db) && key !in db.counters
    ensures DoGet(db, key) == if key in Index(db) then Found(Index(db)[key]) else Missing
  {
  }

  lemma ObjectIsLive(db: Db, key: string)
    requires WellFormed(db) && IsObject(Abs(db), key)
    ensures IsLive(db, key)
  {
    var e, i: nat :| e in Abs(db) && i < |Abs(db)[e]| && ObjectKey(e, i) == key;
    assert Dense(db, e) && key in FamilyOf(db, e);
  }

  lemma DeadMeansMissing(db: Db, key: string)
    requires WellFormed(db) && !IsLive(db, key) && key !in db.counters
    ensures LookUp(Abs(db), key) == Missing
  {
    if IsObject(Abs(db), key) {
      ObjectIsLive(db, key);
    }
  }

  lemma MeaningOfObject(a: Abstract, key: string)
    requires IsObject(a, key) && key !in a
    ensures LookUp(a, key) == Found(ObjectAt(a, key))
  {
  }

  lemma ObjectMeansFound(db: Db, key: string)
    requires WellFormed(db) && IsObject(Abs(db), key)
    ensures DoGet(db, key) == LookUp(Abs(db), key)
  {
    GetFindsObjectAt(db, key);
    assert key !in Abs(db);
    MeaningOfObject(Abs(db), key);
  }

  lemma DeadGet(db: Db, key: string)
    requires WellFormed(db) && key !in db.counters && !IsLive(db, key)
    ensures DoGet(db, key) == LookUp(Abs(db), key) <==> key !in Index(db)
  {
    DeadMeansMissing(db, key);
    GetOfNothing(db, key);
  }

  /** `get` of a path that is no endpoint answers what the logs hold there
      if and only if it is not a key that the index alone still holds. */
  lemma GetFindsLiveObjects(db: Db, key: string)
    requires WellFormed(db) && Unreserved(key) && key !in db.counters
    ensures DoGet(db, key) == LookUp(Abs(db), key) <==> (key in Index(db) ==> IsLive(db, key))
  {
    if IsLive(db, key) {
      LiveIsObject(db, key);
      ObjectMeansFound(db, key);
    } else {
      DeadGet(db, key);
    }
  }

  lemma EndpointAnswers(db: Db, path: string)
    requires CatalogueOk(db) && path in Endpoints(db)
    ensures DoGet(db, path) == Documents(Listing(FamilyOf(db, path)))
    ensures DoGetAll(db, path) == Documents(Listing(FamilyOf(db, path)))
  {
  }

  lemma ListingRefines(db: Db, path: string)
    requires WellFormed(db) && path in Abs(db)
    ensures DoGet(db, path) == DoGetAll(db, path) == ListLog(Abs(db), path)
  {
    FamilyIsLog(db, path);
    EndpointAnswers(db, path);
  }

  lemma ExactGet(db: Db, path: string)
    requires WellFormed(db) && Unreserved(path) && IndexExact(db) && path !in Abs(db)
    ensures DoGet(db, path) == LookUp(Abs(db), path)
  {
    DocumentEndpointIff(db, path);
    GetFindsLiveObjects(db, path);
  }

  lemma GetIsLookUp(db: Db, path: string)
    requires WellFormed(db) && (path in Abs(db) || IsObject(Abs(db), path) || (Unreserved(path) && IndexExact(db)))
    ensures DoGet(db, path) == LookUp(Abs(db), path)
  {
    if path in Abs(db) {
      ListingRefines(db, path);
    } else if Unreserved(path) && IndexExact(db) {
      ExactGet(db, path);
    } else {
      ObjectMeansFound(db, path);
    }
  }

  lemma GetRefines(db: Db, path: string)
    requires WellFormed(db)
    ensures Refines(db, Get(path))
  {
    assert Apply(db, Get(path)) == (db, DoGet(db, path));
    assert AbsApply(Abs(db), Get(path)) == (Abs(db), LookUp(Abs(db), path));
    if Observable(db, Get(path)) {
      GetIsLookUp(db, path);
    }
  }

  lemma GetAllRefines(db: Db, path: string)
    requires WellFormed(db)
    ensures Refines(db, GetAll(path))
  {
    if Unreserved(path) {
      if path in Abs(db) {
        ListingRefines(db, path);
      } else {
        DocumentEndpointIff(db, path);
      }
    }
  }

  /** Reading changes nothing, and answers what the logs hold. */
  lemma ReadsRefine(db: Db, op: Op)
    requires WellFormed(db) && (op.Get? || op.GetAll?)
    ensures Refines(db, op)
  {
    if op.Get? {
      GetRefines(db, op.path);
    } else {
      GetAllRefines(db, op.path);
    }
  }

  lemma SaveIsInvisible(db: Db, family: string, key: string, doc: Json)
    requires WellFormed(db) && (family == USERS || family == TOKENS)
    requires DenseOk(StoreObject(db, family, key, doc))
    ensures Abs(StoreObject(db, family, key, doc)) == Abs(db)
  {
    SystemNamesDiffer();
    SystemNamesAreNotEndpoints(db);
    StoreObjectEffect(db, family, key, doc);
    SameLogs(db, StoreObject(db, family, key, doc));
  }

  lemma SystemOpsRefine(db: Db, op: Op)
    requires WellFormed(db) && (op.SaveUser? || op.SaveToken? || op.CleanTokens?)
    ensures Refines(db, op)
  {
    OpKeepsWellFormed(db, op);
    match op {
      case SaveUser(name, doc) =>
        SaveKeepsWellFormed(db, USERS, UserKey(name), doc);
        SaveIsInvisible(db, USERS, UserKey(name), doc);
      case SaveToken(token) =>
        TokenRoundTrip(token);
        SaveKeepsWellFormed(db, TOKENS, TokenKey(token.token), ToDynamic(token));
        SaveIsInvisible(db, TOKENS, TokenKey(token.token), ToDynamic(token));
      case CleanTokens(now) =>
        CleanEffect(db, now);
        SameLogs(db, DoCleanTokens(db, now).0);
    }
  }

  /** Every operation does to the logs what its meaning says, and answers as its meaning answers. */
  lemma OpRefines(db: Db, op: Op)
    requires WellFormed(db) && Allowed(db, op)
    ensures Refines(db, op)
  {
    match op {
      case Add(path, now) => AddRefines(db, path, now);
      case Delete(path) => DeleteRefines(db, path);
      case Post(path, data) => PostRefines(db, path, data);
      case Put(path, data) => PutRefines(db, path, data);
      case Get(_) | GetAll(_) => ReadsRefine(db, op);
      case SaveUser(_, _) | SaveToken(_) | CleanTokens(_) => SystemOpsRefine(db, op);
    }
  }

  ghost function AbsRun(a: Abstract, run: seq<Op>): Abstract
    decreases |run|
  {
    if run == [] then a else AbsRun(AbsApply(a, run[0]).0, run[1..])
  }

  /** Over every run the column families implement the logs: an endpoint holds exactly the documents
      stored since it was last added, in the order in which they came. */
  lemma {:induction false} RunRefines(db: Db, run: seq<Op>)
    requires WellFormed(db) && ValidRun(db, run)
    ensures WellFormed(Run(db, run)) && Abs(Run(db, run)) == AbsRun(Abs(db), run)
    decreases |run|
  {
    if run != [] {
      OpRefines(db, run[0]);
      RunRefines(Apply(db, run[0]).0, run[1..]);
    }
  }

  // ---- Answers over a run ----

  lemma {:induction false} PrefixIsValid(db: Db, run: seq<Op>, i: nat)
    requires ValidRun(db, run) && i < |run|
    ensures ValidRun(db, run[..i]) && Allowed(Run(db, run[..i]), run[i])
    decreases |run|
  {
    if i > 0 {
      PrefixIsValid(Apply(db, run[0]).0, run[1..], i - 1);
      assert run[..i][1..] == run[1..][..i - 1];
    }
  }

  /** Over every run, every answer that has a meaning in the logs is the one that the logs give. */
  lemma RunAnswersRefine(db: Db, run: seq<Op>, i: nat)
    requires WellFormed(db) && ValidRun(db, run) && i < |run|
    ensures ValidRun(db, run[..i])
    ensures var t, op := Run(db, run[..i]), run[i];
            && WellFormed(t) && Allowed(t, op)
            && (Observable(t, op) ==> Apply(t, op).1 == AbsApply(AbsRun(Abs(db), run[..i]), op).1)
  {
    PrefixIsValid(db, run, i);
    RunRefines(db, run[..i]);
    OpRefines(Run(db, run[..i]), run[i]);
  }
}
