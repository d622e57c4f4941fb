/**
 Each operation keeps the store well formed, and so does every run.
 */
module StoreProofs {
  import opened Wrappers
  import opened Keys
  import opened Store
  import opened StoreInvariant
  import Validations

  // ---- What an operation leaves alone stays in order ----

  lemma SameDocumentsStayDense(db: Db, t: Db)
    requires DenseOk(db) && DocumentEndpoints(t) <= DocumentEndpoints(db)
    requires forall e :: e in DocumentEndpoints(t) ==>
               t.counters[e] == db.counters[e] && FamilyOf(t, e) == FamilyOf(db, e)
    ensures DenseOk(t)
  {
  }

  lemma FewerObjectsStayIndexed(db: Db, t: Db)
    requires IndexOk(db) && Endpoints(t) <= Endpoints(db) && Index(t) == Index(db)
    requires forall e, k :: e in Endpoints(t) && k in FamilyOf(t, e) ==>
               k in FamilyOf(db, e) && FamilyOf(t, e)[k] == FamilyOf(db, e)[k]
    ensures IndexOk(t)
  {
  }

  // ---- Writes to an endpoint of documents: `post` and committed `put` ----

  lemma WellFormedEndpoint(db: Db, e: string)
    requires WellFormed(db) && e in db.counters && Unreserved(e)
    ensures e in DocumentEndpoints(db) && e in db.handles && ALL in db.handles && e != ALL && e != ENDPOINTS
    ensures Dense(db, e)
  {
  }

  lemma WellFormedEndpointNames(db: Db, e: string)
    requires WellFormed(db) && e in DocumentEndpoints(db)
    ensures Unreserved(e) && e != ALL && e != ENDPOINTS
  {
  }

  /** On a well-formed store, `post` stores the document with its id like a committed `put`. */
  lemma PostIsCommit(db: Db, path: string, data: Json)
    requires WellFormed(db) && Unreserved(path) && CanCount(db, path) && path in db.counters && data.Obj?
    ensures var doc := WithId(data, db.counters[path]);
            DoPost(db, path, data) == (CommitPut(db, path, doc), Created(doc))
  {
    WellFormedEndpoint(db, path);
    AtoiToString(Count(db, path));
  }

  lemma PutIsCommit(db: Db, path: string, data: Json)
    requires WellFormed(db) && Unreserved(path) && CanCount(db, path) && BranchOfPut(db, path).Transaction?
    ensures DoPut(db, path, data) == (CommitPut(db, path, data), Done)
  {
  }

  lemma CommitKeepsCatalogue(db: Db, e: string, doc: Json)
    requires WellFormed(db) && e in DocumentEndpoints(db) && CanCount(db, e)
    ensures CatalogueOk(CommitPut(db, e, doc))
  {
    SystemNamesDiffer();
    WellFormedEndpoint(db, e);
    StoreObjectEffect(db, e, ObjectKey(e, Count(db, e)), doc);
    var t := CommitPut(db, e, doc);
    assert t.counters.Keys == db.counters.Keys;
  }

  lemma CommitKeepsDense(db: Db, e: string, doc: Json)
    requires WellFormed(db) && e in DocumentEndpoints(db) && CanCount(db, e)
    ensures DenseOk(CommitPut(db, e, doc))
  {
    WellFormedEndpoint(db, e);
    var n := Count(db, e);
    StoreObjectEffect(db, e, ObjectKey(e, n), doc);
    var t := CommitPut(db, e, doc);
    assert t.counters.Keys == db.counters.Keys;
    forall f | f in DocumentEndpoints(t) ensures Dense(t, f) {
      assert Dense(db, f);
      if f == e {
        AtoiToString(n + 1);
        ObjectKeysSnoc(e, n);
      } else {
        WellFormedEndpoint(db, f);
      }
    }
  }

  lemma DocumentKeyIsOwn(db: Db, e: string, i: nat)
    requires WellFormed(db) && e in DocumentEndpoints(db)
    ensures OwnKey(db, e, ObjectKey(e, i))
  {
    var key := ObjectKey(e, i);
    forall f | f in Endpoints(db) && f != e ensures key !in FamilyOf(db, f) {
      if f == USERS || f == TOKENS {
        ObjectKeyIsUnreserved(e, i);
        UnreservedIsForeign(key);
      } else if key in FamilyOf(db, f) {
        assert Dense(db, f);
        var j :| 0 <= j < Count(db, f) && key == ObjectKey(f, j);
        ObjectKeyIsInjective(e, i, f, j);
      }
    }
  }

  lemma CommitKeepsIndex(db: Db, e: string, doc: Json)
    requires WellFormed(db) && e in DocumentEndpoints(db) && CanCount(db, e)
    ensures IndexOk(CommitPut(db, e, doc))
  {
    WellFormedEndpoint(db, e);
    DocumentKeyIsOwn(db, e, Count(db, e));
    StoreObjectKeepsIndex(db, CommitPut(db, e, doc), e, ObjectKey(e, Count(db, e)), doc);
  }

  lemma CommitKeepsWellFormed(db: Db, e: string, doc: Json)
    requires WellFormed(db) && e in DocumentEndpoints(db) && CanCount(db, e)
    ensures WellFormed(CommitPut(db, e, doc))
  {
    CommitKeepsCatalogue(db, e, doc);
    CommitKeepsDense(db, e, doc);
    CommitKeepsIndex(db, e, doc);
    WellFormedEndpoint(db, e);
    StoreObjectEffect(db, e, ObjectKey(e, Count(db, e)), doc);
    SystemNamesDiffer();
    var t := CommitPut(db, e, doc);
    assert t.counters.Keys == db.counters.Keys;
    assert FamilyOf(t, USERS) == FamilyOf(db, USERS) && FamilyOf(t, TOKENS) == FamilyOf(db, TOKENS);
  }

  // ---- The index-only branch of `put` ----

  lemma SlashKeyIsNoObject(db: Db, e: string, key: string)
    requires WellFormed(db) && e in Endpoints(db) && Validations.EndsWithSlash(key) && Unreserved(key)
    ensures key !in FamilyOf(db, e)
  {
    if e == USERS || e == TOKENS {
      UnreservedIsForeign(key);
    } else {
      assert Dense(db, e);
      forall i: nat ensures ObjectKey(e, i) != key {
        ObjectKeyEndsInDigit(e, i);
      }
    }
  }

  /** The linear scan and the point lookup agree, so the index-only branch is taken exactly for an
      endpoint's path followed by one slash too many that is not itself an endpoint. */
  lemma IndexOnlyBranch(db: Db, path: string)
    ensures BranchOfPut(db, path).IndexOnly? <==>
            Validations.EndsWithSlash(path) && path !in db.counters && path[..|path| - 1] in db.counters
  {
  }

  lemma IndexOnlyKeepsWellFormed(db: Db, path: string, data: Json)
    requires WellFormed(db) && Unreserved(path) && BranchOfPut(db, path).IndexOnly?
    ensures WellFormed(db.(families := PutIn(db.families, ALL, path, data)))
  {
    SystemNamesDiffer();
    SystemNamesAreNotEndpoints(db);
    IndexOnlyBranch(db, path);
    var t := db.(families := PutIn(db.families, ALL, path, data));
    assert t.families.Keys == db.families.Keys;
    assert forall n :: n != ALL ==> FamilyOf(t, n) == FamilyOf(db, n);
    forall e | e in Endpoints(t) ensures Indexed(t, e) {
      assert Indexed(db, e);
      SlashKeyIsNoObject(db, e, path);
    }
    SameDocumentsStayDense(db, t);
  }

  // ---- Users and tokens ----

  lemma SaveKeepsIndex(db: Db, family: string, key: string, doc: Json)
    requires WellFormed(db) && (family == USERS || family == TOKENS) && family + "/" <= key
    ensures IndexOk(StoreObject(db, family, key, doc))
  {
    SystemNamesDiffer();
    forall e | e in Endpoints(db) && e != family ensures key !in FamilyOf(db, e) {
      SystemKeyIsForeign(db, family, key, e);
    }
    StoreObjectKeepsIndex(db, StoreObject(db, family, key, doc), family, key, doc);
  }

  lemma SaveKeepsSystemKeys(db: Db, family: string, key: string, doc: Json)
    requires CatalogueOk(db) && SystemKeysOk(db) && (family == USERS || family == TOKENS) && family + "/" <= key
    requires family == TOKENS ==> FromDynamic(doc).Some?
    ensures SystemKeysOk(StoreObject(db, family, key, doc))
  {
    SystemNamesDiffer();
    StoreObjectEffect(db, family, key, doc);
  }

  lemma SaveKeepsRest(db: Db, family: string, key: string, doc: Json)
    requires WellFormed(db) && (family == USERS || family == TOKENS)
    ensures var t := StoreObject(db, family, key, doc); CatalogueOk(t) && NamesOk(t) && DenseOk(t)
  {
    SystemNamesDiffer();
    SystemNamesAreNotEndpoints(db);
    StoreObjectEffect(db, family, key, doc);
    SameDocumentsStayDense(db, StoreObject(db, family, key, doc));
  }

  lemma SaveKeepsWellFormed(db: Db, family: string, key: string, doc: Json)
    requires WellFormed(db) && (family == USERS || family == TOKENS) && family + "/" <= key
    requires family == TOKENS ==> FromDynamic(doc).Some?
    ensures WellFormed(StoreObject(db, family, key, doc))
    ensures DoRawSave(db, key, doc, family) == (StoreObject(db, family, key, doc), Done)
  {
    SaveKeepsIndex(db, family, key, doc);
    SaveKeepsSystemKeys(db, family, key, doc);
    SaveKeepsRest(db, family, key, doc);
  }

  lemma SystemKeyIsForeign(db: Db, family: string, key: string, e: string)
    requires WellFormed(db) && (family == USERS || family == TOKENS) && family + "/" <= key
    requires e in Endpoints(db) && e != family
    ensures key !in FamilyOf(db, e)
  {
    if e == USERS || e == TOKENS {
      assert USERS[3] != TOKENS[3];
      assert key[3] == (family + "/")[3];
      assert !((e + "/") <= key) by {
        assert (e + "/")[3] == e[3];
      }
    } else {
      assert Dense(db, e);
      forall i: nat ensures ObjectKey(e, i) != key {
        ObjectKeyIsUnreserved(e, i);
        UnreservedIsForeign(ObjectKey(e, i));
      }
    }
  }

  lemma CleanEffect(db: Db, now: int)
    requires CatalogueOk(db) && SystemKeysOk(db)
    ensures var (t, response) := DoCleanTokens(db, now);
            var before, after := FamilyOf(db, TOKENS), FamilyOf(t, TOKENS);
            && response == Done
            && t.counters == db.counters && t.handles == db.handles && t.families.Keys == db.families.Keys
            && (forall n :: n != TOKENS ==> FamilyOf(t, n) == FamilyOf(db, n))
            && (forall k :: k in after <==> k in before && !Expired(before[k], now))
            && (forall k :: k in after ==> after[k] == before[k])
  {
  }

  lemma CleanKeepsWellFormed(db: Db, now: int)
    requires WellFormed(db)
    ensures WellFormed(DoCleanTokens(db, now).0)
  {
    SystemNamesDiffer();
    CleanEffect(db, now);
    SameDocumentsStayDense(db, DoCleanTokens(db, now).0);
    FewerObjectsStayIndexed(db, DoCleanTokens(db, now).0);
  }

  // ---- Adding and deleting endpoints ----

  lemma DescriptorKeyStrips(path: string)
    ensures ENDPOINTS <= DescriptorKey(path) && DescriptorKey(path)[|ENDPOINTS|..] == path
  {
  }

  lemma FreshIsNew(db: Db, path: string)
    requires CatalogueOk(db) && Unreserved(path) && IsFresh(db, path)
    ensures path !in db.counters && path !in SYSTEM_HANDLES
  {
  }

  lemma AddEffect(db: Db, path: string, now: int)
    requires CatalogueOk(db) && Unreserved(path) && IsFresh(db, path)
    ensures var t := DoAddEndpoint(db, path, now);
            && path !in Endpoints(db) && path !in SYSTEM_HANDLES
            && Endpoints(t) == Endpoints(db) + {path}
            && (forall e :: e in Endpoints(db) ==> t.counters[e] == db.counters[e])
            && t.counters[path] == "0"
            && t.families.Keys == db.families.Keys + {path}
            && FamilyOf(t, path) == map[]
            && (forall n :: n != path && n != ENDPOINTS ==> FamilyOf(t, n) == FamilyOf(db, n))
            && FamilyOf(t, ENDPOINTS) ==
               FamilyOf(db, ENDPOINTS)[DescriptorKey(path) := Descriptor(DescriptorId(db), path, now)]
  {
    FreshIsNew(db, path);
  }

  lemma AddKeepsDescriptors(before: Family, paths: set<string>, path: string, id: nat, now: int)
    requires forall e :: e in paths ==> DescriptorKey(e) in before
    requires forall k :: k in before ==>
               ENDPOINTS <= k && k[|ENDPOINTS|..] in paths && UrlOf(before[k]) == Some(k[|ENDPOINTS|..])
    ensures var after := before[DescriptorKey(path) := Descriptor(id, path, now)];
            && (forall e :: e in paths + {path} ==> DescriptorKey(e) in after)
            && (forall k :: k in after ==>
                  ENDPOINTS <= k && k[|ENDPOINTS|..] in paths + {path} && UrlOf(after[k]) == Some(k[|ENDPOINTS|..]))
  {
  }

  lemma AddKeepsCatalogue(db: Db, path: string, now: int)
    requires WellFormed(db) && Allowed(db, Add(path, now))
    ensures CatalogueOk(DoAddEndpoint(db, path, now))
  {
    AddEffect(db, path, now);
    AddKeepsDescriptors(FamilyOf(db, ENDPOINTS), Endpoints(db), path, DescriptorId(db), now);
    var t := DoAddEndpoint(db, path, now);
    assert t.handles == Endpoints(t) + SYSTEM_HANDLES;
  }

  lemma AddKeepsNames(db: Db, path: string, now: int)
    requires WellFormed(db) && Allowed(db, Add(path, now))
    ensures NamesOk(DoAddEndpoint(db, path, now))
  {
    AddEffect(db, path, now);
    var t := DoAddEndpoint(db, path, now);
    forall e, f, i: nat | e in DocumentEndpoints(t) && f in DocumentEndpoints(t)
      ensures ObjectKey(e, i) != f
    {
      if e == path {
        ObjectKeyEndsInDigit(path, i);
        assert f != path ==> f in DocumentEndpoints(db);
      } else {
        assert e in DocumentEndpoints(db);
        assert f != path ==> f in DocumentEndpoints(db);
      }
    }
  }

  lemma AddKeepsObjects(db: Db, path: string, now: int)
    requires WellFormed(db) && Allowed(db, Add(path, now))
    ensures var t := DoAddEndpoint(db, path, now); DenseOk(t) && SystemKeysOk(t) && IndexOk(t)
  {
    SystemNamesDiffer();
    SystemNamesAreNotEndpoints(db);
    AddEffect(db, path, now);
    var t := DoAddEndpoint(db, path, now);
    forall e | e in DocumentEndpoints(t) ensures Dense(t, e) {
      if e == path {
        assert "0" == ToString(0);
        AtoiToString(0);
      } else {
        assert Dense(db, e);
      }
    }
    forall e | e in Endpoints(t) ensures Indexed(t, e) {
      assert e != path ==> Indexed(db, e);
    }
  }

  lemma AddKeepsWellFormed(db: Db, path: string, now: int)
    requires WellFormed(db) && Allowed(db, Add(path, now))
    ensures WellFormed(DoAddEndpoint(db, path, now))
  {
    AddKeepsCatalogue(db, path, now);
    AddKeepsNames(db, path, now);
    AddKeepsObjects(db, path, now);
  }

  /** The object deletions that `delete_endpoint` issues against the default family hit nothing there. */
  lemma ObjectsAreNotCounters(db: Db, path: string, k: string)
    requires WellFormed(db) && path in DocumentEndpoints(db) && k in FamilyOf(db, path)
    ensures k !in db.counters
  {
    assert Dense(db, path);
    var i :| 0 <= i < Count(db, path) && k == ObjectKey(path, i);
    ObjectKeyIsUnreserved(path, i);
    SystemNamesDiffer();
    assert k !in DocumentEndpoints(db);
  }

  lemma DeleteFamilies(db: Db, path: string)
    requires path in db.counters && path in db.families && ENDPOINTS in db.families && path != ENDPOINTS
    requires db.handles == db.families.Keys
    ensures var t := DoDeleteEndpoint(db, path).0;
            && t.families.Keys == db.families.Keys - {path} && t.handles == t.families.Keys
            && FamilyOf(t, ENDPOINTS) == FamilyOf(db, ENDPOINTS) - {DescriptorKey(path)}
            && (forall n :: n != path && n != ENDPOINTS ==> FamilyOf(t, n) == FamilyOf(db, n))
  {
  }

  lemma DeleteEffect(db: Db, path: string)
    requires WellFormed(db) && path in db.counters && Unreserved(path)
    ensures var t := DoDeleteEndpoint(db, path).0;
            && t.counters == db.counters - {path}
            && t.families.Keys == db.families.Keys - {path} && t.handles == t.families.Keys
            && FamilyOf(t, ENDPOINTS) == FamilyOf(db, ENDPOINTS) - {DescriptorKey(path)}
            && (forall n :: n != path && n != ENDPOINTS ==> FamilyOf(t, n) == FamilyOf(db, n))
  {
    WellFormedEndpoint(db, path);
    DeleteFamilies(db, path);
    forall k | k in FamilyOf(db, path) ensures k !in db.counters {
      ObjectsAreNotCounters(db, path, k);
    }
    assert DoDeleteEndpoint(db, path).0.counters == db.counters - {path};
  }

  lemma DeletedCatalogue(db: Db, t: Db, path: string)
    requires CatalogueOk(db) && path in Endpoints(db) && path != USERS && path != TOKENS && path !in SYSTEM_HANDLES
    requires t.counters == db.counters - {path} && t.families.Keys == db.families.Keys - {path} &&
             t.handles == t.families.Keys
    requires FamilyOf(t, ENDPOINTS) == FamilyOf(db, ENDPOINTS) - {DescriptorKey(path)}
    ensures CatalogueOk(t)
  {
    assert Endpoints(t) == Endpoints(db) - {path};
    assert t.handles == Endpoints(t) + SYSTEM_HANDLES;
    forall e | e in Endpoints(t) ensures DescriptorKey(e) in FamilyOf(t, ENDPOINTS) {
      DescriptorKeyStrips(e);
      DescriptorKeyStrips(path);
    }
    forall k | k in FamilyOf(t, ENDPOINTS) ensures k[|ENDPOINTS|..] in Endpoints(t) {
      assert k == ENDPOINTS + k[|ENDPOINTS|..];
    }
  }

  lemma DeleteKeepsCatalogue(db: Db, path: string)
    requires WellFormed(db) && path in db.counters && Unreserved(path)
    ensures CatalogueOk(DoDeleteEndpoint(db, path).0)
  {
    SystemNamesDiffer();
    SystemNamesAreNotEndpoints(db);
    WellFormedEndpoint(db, path);
    DeleteEffect(db, path);
    DeletedCatalogue(db, DoDeleteEndpoint(db, path).0, path);
  }

  lemma DeleteKeepsNames(db: Db, path: string)
    requires WellFormed(db) && path in db.counters && Unreserved(path)
    ensures NamesOk(DoDeleteEndpoint(db, path).0)
  {
    DeleteEffect(db, path);
    var t := DoDeleteEndpoint(db, path).0;
    assert DocumentEndpoints(t) <= DocumentEndpoints(db);
    forall e, f, i: nat | e in DocumentEndpoints(t) && f in DocumentEndpoints(t)
      ensures ObjectKey(e, i) != f
    {
      assert e in DocumentEndpoints(db) && f in DocumentEndpoints(db);
    }
  }

  lemma DeleteKeepsObjects(db: Db, path: string)
    requires WellFormed(db) && path in db.counters && Unreserved(path)
    ensures var t := DoDeleteEndpoint(db, path).0; DenseOk(t) && SystemKeysOk(t) && IndexOk(t)
  {
    SystemNamesDiffer();
    SystemNamesAreNotEndpoints(db);
    DeleteEffect(db, path);
    var t := DoDeleteEndpoint(db, path).0;
    SameDocumentsStayDense(db, t);
    FewerObjectsStayIndexed(db, t);
  }

  lemma DeleteKeepsWellFormed(db: Db, path: string)
    requires WellFormed(db) && path in db.counters && Unreserved(path)
    ensures WellFormed(DoDeleteEndpoint(db, path).0)
  {
    DeleteKeepsCatalogue(db, path);
    DeleteKeepsNames(db, path);
    DeleteKeepsObjects(db, path);
  }

  // ---- Every operation, every run ----

  lemma PostKeepsWellFormed(db: Db, path: string, data: Json)
    requires WellFormed(db) && Unreserved(path) && CanCount(db, path)
    ensures WellFormed(DoPost(db, path, data).0)
  {
    if path in db.counters && data.Obj? {
      WellFormedEndpoint(db, path);
      PostIsCommit(db, path, data);
      CommitKeepsWellFormed(db, path, WithId(data, db.counters[path]));
    }
  }

  lemma PutKeepsWellFormed(db: Db, path: string, data: Json)
    requires WellFormed(db) && Unreserved(path) && CanCount(db, path)
    ensures WellFormed(DoPut(db, path, data).0)
  {
    match BranchOfPut(db, path) {
      case NoSuchPath =>
      case Transaction =>
        WellFormedEndpoint(db, path);
        PutIsCommit(db, path, data);
        CommitKeepsWellFormed(db, path, data);
      case IndexOnly =>
        IndexOnlyKeepsWellFormed(db, path, data);
    }
  }

  lemma TokenKeepsWellFormed(db: Db, token: Token)
    requires WellFormed(db)
    ensures WellFormed(DoRawSave(db, TokenKey(token.token), ToDynamic(token), TOKENS).0)
  {
    TokenRoundTrip(token);
    SaveKeepsWellFormed(db, TOKENS, TokenKey(token.token), ToDynamic(token));
  }

  lemma DeletingKeepsWellFormed(db: Db, path: string)
    requires WellFormed(db) && Unreserved(path)
    ensures WellFormed(DoDeleteEndpoint(db, path).0)
  {
    if path in db.counters {
      DeleteKeepsWellFormed(db, path);
    }
  }

  lemma EndpointOpKeepsWellFormed(db: Db, op: Op)
    requires WellFormed(db) && Allowed(db, op) && (op.Add? || op.Delete?)
    ensures WellFormed(Apply(db, op).0)
  {
    if op.Add? {
      AddKeepsWellFormed(db, op.path, op.now);
    } else {
      DeletingKeepsWellFormed(db, op.path);
    }
  }

  lemma DocumentOpKeepsWellFormed(db: Db, op: Op)
    requires WellFormed(db) && Allowed(db, op) && (op.Post? || op.Put?)
    ensures WellFormed(Apply(db, op).0)
  {
    if op.Post? {
      PostKeepsWellFormed(db, op.path, op.data);
    } else {
      PutKeepsWellFormed(db, op.path, op.data);
    }
  }

  lemma UserKeepsWellFormed(db: Db, name: string, doc: Json)
    requires WellFormed(db)
    ensures WellFormed(DoRawSave(db, UserKey(name), doc, USERS).0)
  {
    SystemNamesDiffer();
    SaveKeepsWellFormed(db, USERS, UserKey(name), doc);
  }

  lemma SaveOpKeepsWellFormed(db: Db, op: Op)
    requires WellFormed(db) && (op.SaveUser? || op.SaveToken?)
    ensures WellFormed(Apply(db, op).0)
  {
    if op.SaveUser? {
      UserKeepsWellFormed(db, op.name, op.doc);
      assert Apply(db, op) == DoRawSave(db, UserKey(op.name), op.doc, USERS);
    } else {
      TokenKeepsWellFormed(db, op.token);
      assert Apply(db, op) == DoRawSave(db, TokenKey(op.token.token), ToDynamic(op.token), TOKENS);
    }
  }

  lemma OpKeepsWellFormed(db: Db, op: Op)
    requires WellFormed(db) && Allowed(db, op)
    ensures WellFormed(Apply(db, op).0)
  {
    if op.Add? || op.Delete? {
      EndpointOpKeepsWellFormed(db, op);
    } else if op.Post? || op.Put? {
      DocumentOpKeepsWellFormed(db, op);
    } else if op.SaveUser? || op.SaveToken? {
      SaveOpKeepsWellFormed(db, op);
    } else if op.CleanTokens? {
      CleanKeepsWellFormed(db, op.now);
    }
  }

  // ---- Runs ----

  ghost predicate ValidRun(db: Db, run: seq<Op>)
    decreases |run|
  {
    run == [] || (Allowed(db, run[0]) && ValidRun(Apply(db, run[0]).0, run[1..]))
  }

  ghost function Run(db: Db, run: seq<Op>): Db
    requires ValidRun(db, run)
    decreases |run|
  {
    if run == [] then db else Run(Apply(db, run[0]).0, run[1..])
  }

  lemma {:induction false} RunKeepsWellFormed(db: Db, run: seq<Op>)
    requires WellFormed(db) && ValidRun(db, run)
    ensures WellFormed(Run(db, run))
    decreases |run|
  {
    if run != [] {
      OpKeepsWellFormed(db, run[0]);
      RunKeepsWellFormed(Apply(db, run[0]).0, run[1..]);
    }
  }

  const TEST := "/test_endpoint"

  /** The store as a first start leaves it, reopened. */
  ghost const OPENED := Db(
    map[COUNT := "0", TEST := "0", USERS := "0", TOKENS := "0"],
    map[ALL := map[],
        ENDPOINTS := map[DescriptorKey(TEST) := Descriptor(0, TEST, 0),
                         DescriptorKey(USERS) := Descriptor(0, USERS, 0),
                         DescriptorKey(TOKENS) := Descriptor(0, TOKENS, 0)],
        COUNT := map[], TEST := map[], USERS := map[], TOKENS := map[]],
    {ALL, ENDPOINTS, COUNT, TEST, USERS, TOKENS})

  lemma OpenedNames()
    ensures Endpoints(OPENED) == {TEST, USERS, TOKENS} && DocumentEndpoints(OPENED) == {TEST}
    ensures Unreserved(TEST) && NamesOk(OPENED)
  {
    SystemNamesDiffer();
    assert TEST[1] == 't' && |TEST| == 14;
    assert Endpoints(OPENED) == {TEST, USERS, TOKENS};
    assert DocumentEndpoints(OPENED) == {TEST};
    forall i: nat ensures ObjectKey(TEST, i) != TEST {
      ObjectKeyEndsInDigit(TEST, i);
    }
  }

  lemma OpenedHandles()
    ensures OPENED.handles == OPENED.families.Keys == Endpoints(OPENED) + SYSTEM_HANDLES
  {
    OpenedNames();
    assert OPENED.families.Keys == OPENED.handles;
  }

  lemma OpenedDescriptors()
    ensures forall e :: e in {TEST, USERS, TOKENS} ==> DescriptorKey(e) in FamilyOf(OPENED, ENDPOINTS)
    ensures forall k :: k in FamilyOf(OPENED, ENDPOINTS) ==>
              ENDPOINTS <= k && k[|ENDPOINTS|..] in {TEST, USERS, TOKENS} &&
              UrlOf(FamilyOf(OPENED, ENDPOINTS)[k]) == Some(k[|ENDPOINTS|..])
  {
    assert TEST[1] == 't' && USERS[3] != TOKENS[3] && USERS[1] == '_' && TOKENS[1] == '_';
    DescriptorKeyStrips(TEST);
    DescriptorKeyStrips(USERS);
    DescriptorKeyStrips(TOKENS);
  }

  lemma OpenedCatalogue()
    ensures CatalogueOk(OPENED)
  {
    OpenedNames();
    OpenedHandles();
    OpenedDescriptors();
  }

  lemma OpenedIsWellFormed()
    ensures WellFormed(OPENED)
  {
    OpenedNames();
    OpenedCatalogue();
    AtoiToString(0);
    assert "0" == ToString(0);
    assert Dense(OPENED, TEST);
  }
}
