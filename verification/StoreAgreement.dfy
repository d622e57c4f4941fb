/**
 Listings, single lookups, the catalogue and the index: how the views of the store agree,
 and exactly when they stop agreeing.
 */
module StoreAgreement {
  import opened Wrappers
  import opened Keys
  import opened Store
  import opened StoreInvariant
  import opened StoreProofs
  import opened StoreTheorems
  import Validations

  // ---- Listings ----

  ghost predicate AllIn(keys: seq<string>, family: Family) {
    forall k :: k in keys ==> k in family
  }

  lemma {:induction false} ValuesConcat(family: Family, a: seq<string>, b: seq<string>)
    requires AllIn(a, family) && AllIn(b, family)
    ensures AllIn(a + b, family)
    ensures Values(family, a + b) == Values(family, a) + Values(family, b)
  {
  }

  function Without(a: seq<string>, j: nat): (rest: seq<string>)
    requires j < |a|
    ensures |rest| == |a| - 1
  {
    a[..j] + a[j + 1..]
  }

  /** Taking one key out takes its document out. */
  lemma TakeOut(family: Family, a: seq<string>, j: nat)
    requires AllIn(a, family) && j < |a|
    ensures var rest := Without(a, j);
            AllIn(rest, family) &&
            multiset(a) == multiset(rest) + multiset{a[j]} &&
            multiset(Values(family, a)) == multiset(Values(family, rest)) + multiset{family[a[j]]}
  {
    var front, back := a[..j], a[j + 1..];
    assert a == front + [a[j]] + back;
    assert AllIn(front, family) && AllIn(back, family) && AllIn([a[j]], family);
    ValuesConcat(family, front, back);
    ValuesConcat(family, front, [a[j]]);
    ValuesConcat(family, front + [a[j]], back);
    assert Values(family, [a[j]]) == [family[a[j]]];
  }

  lemma Cancel(x: multiset<string>, y: multiset<string>, k: string)
    requires x + multiset{k} == y + multiset{k}
    ensures x == y
  {
    assert x == (x + multiset{k}) - multiset{k};
    assert y == (y + multiset{k}) - multiset{k};
  }

  /** The documents under the same keys are the same, whatever the order of the keys. */
  lemma {:induction false} ValuesMultiset(family: Family, a: seq<string>, b: seq<string>)
    requires AllIn(a, family) && AllIn(b, family) && multiset(a) == multiset(b)
    ensures multiset(Values(family, a)) == multiset(Values(family, b))
    decreases |a|
  {
    if a == [] {
      assert |multiset(b)| == |b|;
    } else {
      assert a[0] in multiset(b);
      var j :| 0 <= j < |b| && b[j] == a[0];
      TakeOut(family, a, 0);
      TakeOut(family, b, j);
      Cancel(multiset(Without(a, 0)), multiset(Without(b, j)), a[0]);
      ValuesMultiset(family, Without(a, 0), Without(b, j));
    }
  }

  function KeysById(e: string, n: nat): (keys: seq<string>)
    ensures |keys| == n && forall i :: 0 <= i < n ==> keys[i] == ObjectKey(e, i)
  {
    seq(n, i requires 0 <= i < n => ObjectKey(e, i))
  }

  lemma {:induction false} NoDuplicatesMultiset(a: seq<string>, s: set<string>)
    requires forall i, j :: 0 <= i < j < |a| ==> a[i] != a[j]
    requires forall k :: k in a <==> k in s
    ensures multiset(a) == multiset(s)
    decreases |a|
  {
    if a == [] {
      assert s == {};
    } else {
      var k := a[0];
      assert a == [k] + a[1..];
      forall x ensures x in a[1..] <==> x in s - {k} {
        TailMembers(a, x);
      }
      NoDuplicatesMultiset(a[1..], s - {k});
      assert multiset(s) == multiset(s - {k}) + multiset{k};
    }
  }

  lemma KeysByIdMultiset(e: string, n: nat)
    ensures multiset(KeysById(e, n)) == multiset(ObjectKeys(e, n))
  {
    var byId := KeysById(e, n);
    forall i, j | 0 <= i < j < n ensures byId[i] != byId[j] {
      if byId[i] == byId[j] {
        ObjectKeyIsInjective(e, i, e, j);
      }
    }
    forall k ensures k in byId <==> k in ObjectKeys(e, n) {
      if k in ObjectKeys(e, n) {
        var i :| 0 <= i < n && k == ObjectKey(e, i);
        assert byId[i] == k;
      }
    }
    NoDuplicatesMultiset(byId, ObjectKeys(e, n));
  }

  lemma ValuesById(e: string, log: seq<Json>)
    ensures AllIn(KeysById(e, |log|), ToFamily(e, log))
    ensures Values(ToFamily(e, log), KeysById(e, |log|)) == log
  {
    var byId := KeysById(e, |log|);
    forall k | k in byId ensures k in ToFamily(e, log) {
      var i :| 0 <= i < |log| && byId[i] == k;
      ToFamilyAt(e, log, i);
    }
    forall i | 0 <= i < |log| ensures Values(ToFamily(e, log), byId)[i] == log[i] {
      ToFamilyAt(e, log, i);
    }
  }

  /** A listing holds every document of the log exactly once, in the bytewise order of the keys. */
  lemma ListingIsLogInKeyOrder(e: string, log: seq<Json>)
    ensures multiset(Listing(ToFamily(e, log))) == multiset(log)
    ensures Listing(ToFamily(e, log)) == Values(ToFamily(e, log), InOrder(ObjectKeys(e, |log|)))
  {
    var inOrder := InOrder(ObjectKeys(e, |log|));
    KeysByIdMultiset(e, |log|);
    SortedHasNoDuplicates(inOrder);
    NoDuplicatesMultiset(inOrder, ObjectKeys(e, |log|));
    ValuesById(e, log);
    ValuesMultiset(ToFamily(e, log), inOrder, KeysById(e, |log|));
  }

  // ---- The catalogue ----

  /** On a well-formed store no operation misses a handle, and every lookup of an endpoint succeeds. */
  lemma NoHandleIsMissing(db: Db, path: string, data: Json)
    requires WellFormed(db) && path in db.counters
    ensures path in db.handles && path in db.families
    ensures DoGet(db, path) == DoGetAll(db, path) == Documents(Listing(db.families[path]))
    ensures CanCount(db, path) ==> DoPost(db, path, data).1 != Failed(NoHandle)
    ensures CanCount(db, path) ==> DoPut(db, path, data).1 != Failed(NoHandle)
  {
  }

  /** Counter, descriptor and handle: an endpoint has all three or none. */
  lemma CatalogueAgrees(db: Db, path: string)
    requires WellFormed(db)
    ensures path in Endpoints(db) <==> path in db.handles && path !in SYSTEM_HANDLES
    ensures path in Endpoints(db) <==> GetEndpoint(db, path).Found?
    ensures path in Endpoints(db) ==> UrlOf(GetEndpoint(db, path).doc) == Some(path)
  {
    SystemNamesDiffer();
    SystemNamesAreNotEndpoints(db);
    DescriptorKeyStrips(path);
  }

  /** Deleting an endpoint keeps the catalogue exactly when none of its object keys is a counted path. */
  lemma DeleteKeepsCatalogueIff(db: Db, path: string)
    requires CatalogueOk(db) && path in Endpoints(db) && path != USERS && path != TOKENS && path !in SYSTEM_HANDLES
    requires ALL !in Endpoints(db) && ENDPOINTS !in Endpoints(db)
    ensures CatalogueOk(DoDeleteEndpoint(db, path).0)
            <==> forall k :: k in FamilyOf(db, path) && k != path ==> k !in db.counters
  {
    SystemNamesDiffer();
    DeleteFamilies(db, path);
    var t := DoDeleteEndpoint(db, path).0;
    if k :| k in FamilyOf(db, path) && k != path && k in db.counters {
      if k != COUNT {
        assert k in db.handles && k in t.handles && k !in Endpoints(t);
      }
    } else {
      assert t.counters == db.counters - {path};
      DeletedCatalogue(db, t, path);
    }
  }

  // ---- The index ----

  /** Different endpoints have no object key in common, so the index is their disjoint union. */
  lemma FamiliesAreDisjoint(db: Db, e: string, f: string)
    requires WellFormed(db) && e in Endpoints(db) && f in Endpoints(db) && e != f
    ensures FamilyOf(db, e).Keys !! FamilyOf(db, f).Keys
  {
    forall k | k in FamilyOf(db, e) ensures k !in FamilyOf(db, f) {
      if e == USERS || e == TOKENS {
        SystemKeyIsForeign(db, e, k, f);
      } else {
        assert Dense(db, e);
        var i :| 0 <= i < Count(db, e) && k == ObjectKey(e, i);
        DocumentKeyIsOwn(db, e, i);
      }
    }
  }

  /** The operations that leave something in the index, or put something there, that no family has. */
  ghost predicate LeavesOrphans(db: Db, op: Op) {
    match op
    case Delete(path) => path in db.counters && FamilyOf(db, path) != map[]
    case Put(path, _) => BranchOfPut(db, path).IndexOnly?
    case CleanTokens(now) => exists k :: k in FamilyOf(db, TOKENS) && Expired(FamilyOf(db, TOKENS)[k], now)
    case _ => false
  }

  lemma ObjectsKeepExact(db: Db, t: Db)
    requires IndexExact(db) && Index(t) == Index(db)
    requires forall e, k :: e in Endpoints(db) && k in FamilyOf(db, e) ==> e in Endpoints(t) && k in FamilyOf(t, e)
    ensures IndexExact(t)
  {
  }

  /** One more object in a family and in the index. */
  lemma StoringKeepsExact(db: Db, t: Db, family: string, key: string, doc: Json)
    requires CatalogueOk(db) && IndexExact(db) && family in Endpoints(db) && family != ALL && ALL !in Endpoints(db)
    requires t.counters.Keys == db.counters.Keys && t.families == StoreObject(db, family, key, doc).families
    ensures IndexExact(t)
  {
    StoreObjectEffect(db, family, key, doc);
    forall k | k in Index(t) ensures IsLive(t, k) {
      if k == key {
        assert key in FamilyOf(t, family);
      } else {
        assert k in Index(db) && IsLive(db, k);
        var e :| e in Endpoints(db) && k in FamilyOf(db, e);
        assert k in FamilyOf(t, e);
      }
    }
  }

  lemma CommitKeepsExact(db: Db, e: string, doc: Json)
    requires WellFormed(db) && IndexExact(db) && e in DocumentEndpoints(db) && CanCount(db, e)
    ensures IndexExact(CommitPut(db, e, doc))
  {
    SystemNamesAreNotEndpoints(db);
    StoringKeepsExact(db, CommitPut(db, e, doc), e, ObjectKey(e, Count(db, e)), doc);
  }

  lemma SaveKeepsExact(db: Db, family: string, key: string, doc: Json)
    requires WellFormed(db) && IndexExact(db) && (family == USERS || family == TOKENS)
    ensures IndexExact(StoreObject(db, family, key, doc))
  {
    SystemNamesDiffer();
    SystemNamesAreNotEndpoints(db);
    StoringKeepsExact(db, StoreObject(db, family, key, doc), family, key, doc);
  }

  lemma AddKeepsExact(db: Db, path: string, now: int)
    requires WellFormed(db) && IndexExact(db) && Allowed(db, Add(path, now))
    ensures IndexExact(DoAddEndpoint(db, path, now))
  {
    SystemNamesDiffer();
    SystemNamesAreNotEndpoints(db);
    AddEffect(db, path, now);
    ObjectsKeepExact(db, DoAddEndpoint(db, path, now));
  }

  /** The objects of a family that is gone are in no other one. */
  lemma LostFamilyIsOrphan(db: Db, t: Db, path: string, k: string)
    requires WellFormed(db) && path in DocumentEndpoints(db) && k in FamilyOf(db, path)
    requires t.counters == db.counters - {path} && Index(t) == Index(db)
    requires forall n :: n != path && n != ENDPOINTS ==> FamilyOf(t, n) == FamilyOf(db, n)
    ensures !IndexExact(t)
  {
    SystemNamesAreNotEndpoints(db);
    assert Indexed(db, path);
    assert k in Index(t);
    forall e | e in Endpoints(t) ensures k !in FamilyOf(t, e) {
      FamiliesAreDisjoint(db, path, e);
    }
    assert !IsLive(t, k);
  }

  lemma EmptyFamilyGoes(db: Db, t: Db, path: string)
    requires IndexExact(db) && ENDPOINTS !in Endpoints(db) && FamilyOf(db, path) == map[]
    requires t.counters == db.counters - {path} && Index(t) == Index(db)
    requires forall n :: n != path && n != ENDPOINTS ==> FamilyOf(t, n) == FamilyOf(db, n)
    ensures IndexExact(t)
  {
    ObjectsKeepExact(db, t);
  }

  /** A family without objects can go; one with objects leaves them in the index. */
  lemma DeleteExactIff(db: Db, path: string)
    requires WellFormed(db) && IndexExact(db) && Unreserved(path) && path in db.counters
    ensures IndexExact(DoDeleteEndpoint(db, path).0) <==> FamilyOf(db, path) == map[]
  {
    SystemNamesDiffer();
    SystemNamesAreNotEndpoints(db);
    WellFormedEndpoint(db, path);
    DeleteEffect(db, path);
    if k :| k in FamilyOf(db, path) {
      LostFamilyIsOrphan(db, DoDeleteEndpoint(db, path).0, path, k);
    } else {
      EmptyFamilyGoes(db, DoDeleteEndpoint(db, path).0, path);
    }
  }

  lemma IndexOnlyIsOrphan(db: Db, path: string, data: Json)
    requires WellFormed(db) && Unreserved(path) && BranchOfPut(db, path).IndexOnly?
    ensures !IndexExact(db.(families := PutIn(db.families, ALL, path, data)))
  {
    SystemNamesAreNotEndpoints(db);
    IndexOnlyBranch(db, path);
    var t := db.(families := PutIn(db.families, ALL, path, data));
    assert path in Index(t);
    forall e | e in Endpoints(t) ensures path !in FamilyOf(t, e) {
      SlashKeyIsNoObject(db, e, path);
    }
    assert !IsLive(t, path);
  }

  /** A token that is gone from its family is in no other one. */
  lemma LostTokenIsOrphan(db: Db, t: Db, k: string)
    requires WellFormed(db) && k in FamilyOf(db, TOKENS) && k !in FamilyOf(t, TOKENS)
    requires t.counters == db.counters && forall n :: n != TOKENS ==> FamilyOf(t, n) == FamilyOf(db, n)
    ensures !IndexExact(t)
  {
    SystemNamesDiffer();
    assert Indexed(db, TOKENS);
    assert k in Index(t);
    forall e | e in Endpoints(t) ensures k !in FamilyOf(t, e) {
      if e != TOKENS {
        FamiliesAreDisjoint(db, TOKENS, e);
      }
    }
    assert !IsLive(t, k);
  }

  lemma KeptTokensStayExact(db: Db, t: Db)
    requires IndexExact(db) && t.counters == db.counters && Index(t) == Index(db)
    requires forall n :: n != TOKENS ==> FamilyOf(t, n) == FamilyOf(db, n)
    requires forall k :: k in FamilyOf(db, TOKENS) ==> k in FamilyOf(t, TOKENS)
    ensures IndexExact(t)
  {
    ObjectsKeepExact(db, t);
  }

  lemma TokensKeptIff(db: Db, t: Db, now: int)
    requires WellFormed(db) && IndexExact(db)
    requires t.counters == db.counters && forall n :: n != TOKENS ==> FamilyOf(t, n) == FamilyOf(db, n)
    requires forall k :: k in FamilyOf(t, TOKENS) <==>
               k in FamilyOf(db, TOKENS) && !Expired(FamilyOf(db, TOKENS)[k], now)
    ensures IndexExact(t) <==> !LeavesOrphans(db, CleanTokens(now))
  {
    SystemNamesDiffer();
    if k :| k in FamilyOf(db, TOKENS) && Expired(FamilyOf(db, TOKENS)[k], now) {
      LostTokenIsOrphan(db, t, k);
    } else {
      KeptTokensStayExact(db, t);
    }
  }

  lemma CleanExactIff(db: Db, now: int)
    requires WellFormed(db) && IndexExact(db)
    ensures IndexExact(DoCleanTokens(db, now).0) <==> !LeavesOrphans(db, CleanTokens(now))
  {
    CleanEffect(db, now);
    TokensKeptIff(db, DoCleanTokens(db, now).0, now);
  }

  /** An exact index stays exact under every operation but deleting an endpoint that has objects,
      the index-only branch of `put`, and cleaning up a token. */
  lemma IndexStaysExactIff(db: Db, op: Op)
    requires WellFormed(db) && IndexExact(db) && Allowed(db, op)
    ensures IndexExact(Apply(db, op).0) <==> !LeavesOrphans(db, op)
  {
    match op {
      case Add(path, now) => AddKeepsExact(db, path, now);
      case Delete(path) =>
        if path in db.counters {
          DeleteExactIff(db, path);
        }
      case Post(path, data) =>
        if path in db.counters && data.Obj? {
          WellFormedEndpoint(db, path);
          PostIsCommit(db, path, data);
          CommitKeepsExact(db, path, WithId(data, db.counters[path]));
        }
      case Put(path, data) =>
        match BranchOfPut(db, path) {
          case NoSuchPath =>
          case Transaction =>
            WellFormedEndpoint(db, path);
            PutIsCommit(db, path, data);
            CommitKeepsExact(db, path, data);
          case IndexOnly => IndexOnlyIsOrphan(db, path, data);
        }
      case Get(_) | GetAll(_) =>
      case SaveUser(name, doc) =>
        SaveKeepsWellFormed(db, USERS, UserKey(name), doc);
        SaveKeepsExact(db, USERS, UserKey(name), doc);
      case SaveToken(token) =>
        TokenRoundTrip(token);
        SaveKeepsWellFormed(db, TOKENS, TokenKey(token.token), ToDynamic(token));
        SaveKeepsExact(db, TOKENS, TokenKey(token.token), ToDynamic(token));
      case CleanTokens(now) => CleanExactIff(db, now);
    }
  }

  ghost predicate NoOrphansOn(db: Db, run: seq<Op>)
    requires ValidRun(db, run)
    decreases |run|
  {
    run == [] || (!LeavesOrphans(db, run[0]) && NoOrphansOn(Apply(db, run[0]).0, run[1..]))
  }

  lemma {:induction false} RunKeepsIndexExact(db: Db, run: seq<Op>)
    requires WellFormed(db) && IndexExact(db) && ValidRun(db, run) && NoOrphansOn(db, run)
    ensures IndexExact(Run(db, run))
    decreases |run|
  {
    if run != [] {
      IndexStaysExactIff(db, run[0]);
      OpKeepsWellFormed(db, run[0]);
      RunKeepsIndexExact(Apply(db, run[0]).0, run[1..]);
    }
  }

  // ---- Where the store surprises ----

  /** A deleted endpoint's objects can still be looked up one by one. */
  lemma DeletedObjectsStayReachable(db: Db, path: string, i: nat)
    requires WellFormed(db) && Unreserved(path) && path in db.counters && i < Count(db, path)
    ensures var t := DoDeleteEndpoint(db, path).0;
            && Dense(db, path) && WellFormed(t)
            && DoGet(t, ObjectKey(path, i)) == Found(Log(db, path)[i])
            && LookUp(Abs(t), ObjectKey(path, i)) == Missing
  {
    WellFormedEndpoint(db, path);
    assert ObjectKey(path, i) in ObjectKeys(path, Count(db, path));
    GetFindsObject(db, path, i);
    DeletedIsFound(db, path, ObjectKey(path, i));
    DeletedHasNoMeaning(db, path, ObjectKey(path, i));
  }

  lemma DeletedIsFound(db: Db, path: string, key: string)
    requires WellFormed(db) && Unreserved(path) && path in db.counters && key in FamilyOf(db, path)
    ensures DoGet(DoDeleteEndpoint(db, path).0, key) == DoGet(db, key)
  {
    WellFormedEndpoint(db, path);
    ObjectsAreNotCounters(db, path, key);
    DeletedIsGone(db, path, key);
  }

  lemma DeletedHasNoMeaning(db: Db, path: string, key: string)
    requires WellFormed(db) && Unreserved(path) && path in db.counters && key in FamilyOf(db, path)
    ensures var t := DoDeleteEndpoint(db, path).0; WellFormed(t) && LookUp(Abs(t), key) == Missing
  {
    DeleteKeepsWellFormed(db, path);
    DeletedIsGone(db, path, key);
    DeadMeansMissing(DoDeleteEndpoint(db, path).0, key);
  }

  lemma DeletedIsGone(db: Db, path: string, key: string)
    requires WellFormed(db) && Unreserved(path) && path in db.counters && key in FamilyOf(db, path)
    ensures var t := DoDeleteEndpoint(db, path).0;
            !IsLive(t, key) && key !in t.counters && Index(t) == Index(db) && ALL in t.handles
  {
    SystemNamesDiffer();
    WellFormedEndpoint(db, path);
    DeleteEffect(db, path);
    ObjectsAreNotCounters(db, path, key);
    var t := DoDeleteEndpoint(db, path).0;
    forall e | e in Endpoints(t) ensures key !in FamilyOf(t, e) {
      FamiliesAreDisjoint(db, path, e);
    }
  }

  /** `put` to an existing endpoint stores the document exactly when the path without a final
      slash is an endpoint too; otherwise it does nothing at all. */
  lemma PutStoresIff(db: Db, path: string, data: Json)
    requires WellFormed(db) && Unreserved(path) && path in db.counters && CanCount(db, path)
    ensures DoPut(db, path, data).0 == CommitPut(db, path, data) <==> Validations.Sanitized(path) in db.counters
    ensures DoPut(db, path, data).0 == db <==> Validations.Sanitized(path) !in db.counters
  {
    WellFormedEndpoint(db, path);
    var n := Count(db, path);
    AtoiToString(n + 1);
    assert CommitPut(db, path, data).counters[path] != db.counters[path];
  }

  /** Deleting an endpoint under whose object's key another endpoint lives takes that one's counter
      away, and leaves its handle and descriptor behind. */
  lemma NestedEndpointLosesItsCounter(db: Db, path: string, data: Json, now: int)
    requires WellFormed(db) && Allowed(db, Add(path, now)) && data.Obj?
    requires var inner := ObjectKey(path, 0); IsFresh(DoAddEndpoint(db, path, now), inner)
    ensures var inner := ObjectKey(path, 0);
            var both := DoAddEndpoint(DoAddEndpoint(db, path, now), inner, now);
            CanCount(both, path) &&
            var full := DoPost(both, path, data).0;
            var t := DoDeleteEndpoint(full, path).0;
            inner in both.counters && inner !in t.counters && inner in t.handles && !CatalogueOk(t)
  {
  }

  /** Such an endpoint can be added to a store that was just opened. */
  lemma NestedEndpointExists()
    ensures Allowed(OPENED, Add("/a", 0)) && IsFresh(DoAddEndpoint(OPENED, "/a", 0), ObjectKey("/a", 0))
  {
    CanAddToOpened("/a");
    SystemNamesDiffer();
    ObjectKeyEndsInDigit("/a", 0);
    assert |ObjectKey("/a", 0)| == 4 && ObjectKey("/a", 0)[1] == 'a' && |TEST| == 14;
  }

  // ---- Concrete stores ----

  /** A short name that an opened store does not use yet can be added to it. */
  lemma CanAddToOpened(path: string)
    requires path == "/a" || path == "/a/"
    ensures Allowed(OPENED, Add(path, 0))
  {
    OpenedNames();
    SystemNamesDiffer();
    assert path[1] == 'a' && TEST[1] == 't' && |TEST| == 14 && |path| <= 3;
    assert IsFresh(OPENED, path);
    forall i: nat ensures ObjectKey(TEST, i) != path && ObjectKey(path, i) != TEST {
      ObjectKeyEndsInDigit(TEST, i);
      assert ObjectKey(path, i)[1] == 'a' && TEST[1] == 't';
    }
  }

  /** An endpoint called `/a/` alone: every `put` to it is dropped. */
  lemma PutIsDropped(data: Json)
    ensures Allowed(OPENED, Add("/a/", 0))
    ensures var db := DoAddEndpoint(OPENED, "/a/", 0);
            "/a/" in db.counters && CanCount(db, "/a/") && DoPut(db, "/a/", data) == (db, Done)
  {
    CanAddToOpened("/a/");
    SystemNamesDiffer();
    AtoiToString(0);
    assert "0" == ToString(0);
    assert Validations.Sanitized("/a/") == "/a";
    assert "/a"[1] == 'a' && |"/a"| == 2 && |TEST| == 14;
  }

  /** One document, its endpoint deleted: it is still found, and no log holds it. */
  lemma OrphanIsFound()
    ensures Allowed(OPENED, Add("/a", 0))
    ensures var db := DoAddEndpoint(OPENED, "/a", 0);
            CanCount(db, "/a") &&
            var t := DoDeleteEndpoint(DoPost(db, "/a", Obj(map[])).0, "/a").0;
            && WellFormed(t) && LookUp(Abs(t), ObjectKey("/a", 0)) == Missing
            && DoGet(t, ObjectKey("/a", 0)) == Found(Obj(map["ID" := Str("0")]))
  {
    CanAddToOpened("/a");
    OpenedIsWellFormed();
    var db := DoAddEndpoint(OPENED, "/a", 0);
    AddKeepsWellFormed(OPENED, "/a", 0);
    AtoiToString(0);
    assert "0" == ToString(0);
    OneObject(db, "/a");
    PostIsCommit(db, "/a", Obj(map[]));
    WellFormedEndpoint(db, "/a");
    CommitKeepsWellFormed(db, "/a", WithId(Obj(map[]), "0"));
    DeletedObjectsStayReachable(DoPost(db, "/a", Obj(map[])).0, "/a", 0);
  }

  /** The first document of an endpoint. */
  lemma OneObject(db: Db, e: string)
    requires WellFormed(db) && Unreserved(e) && e in db.counters && db.counters[e] == "0"
    ensures CanCount(db, e) && Count(db, e) == 0
    ensures var t := CommitPut(db, e, WithId(Obj(map[]), "0"));
            Count(t, e) == 1 && WellFormed(t) && Dense(t, e) && Log(t, e) == [Obj(map["ID" := Str("0")])]
  {
    AtoiToString(0);
    AtoiToString(1);
    assert "0" == ToString(0);
    WellFormedEndpoint(db, e);
    CommitKeepsWellFormed(db, e, WithId(Obj(map[]), "0"));
    CommitAppendsToLog(db, e, WithId(Obj(map[]), "0"));
  }

  // ---- Nothing is overwritten ----

  ghost predicate NeverDeletes(run: seq<Op>, path: string) {
    forall i :: 0 <= i < |run| ==> run[i] != Delete(path)
  }

  lemma MeaningKeepsLog(a: Abstract, op: Op, e: string)
    requires e in a && op != Delete(e) && (op.Add? ==> op.path != e)
    ensures var b := AbsApply(a, op).0; e in b && a[e] <= b[e]
  {
  }

  lemma AddedIsNew(db: Db, op: Op, e: string)
    requires CatalogueOk(db) && Allowed(db, op) && op.Add? && e in DocumentEndpoints(db)
    ensures op.path != e
  {
  }

  lemma RefinedLog(db: Db, op: Op, e: string)
    requires WellFormed(db) && Allowed(db, op) && Refines(db, op) && e in AbsApply(Abs(db), op).0
    ensures WellFormed(Apply(db, op).0) && e in DocumentEndpoints(Apply(db, op).0)
    ensures Abs(Apply(db, op).0)[e] == AbsApply(Abs(db), op).0[e]
  {
  }

  /** What an operation does to an endpoint it does not delete: at most, append. */
  lemma OpKeepsLog(db: Db, op: Op, e: string)
    requires WellFormed(db) && Allowed(db, op) && e in DocumentEndpoints(db) && op != Delete(e)
    ensures WellFormed(Apply(db, op).0) && e in DocumentEndpoints(Apply(db, op).0)
    ensures Abs(db)[e] <= Abs(Apply(db, op).0)[e]
  {
    OpRefines(db, op);
    if op.Add? {
      AddedIsNew(db, op, e);
    }
    MeaningKeepsLog(Abs(db), op, e);
    RefinedLog(db, op, e);
  }

  /** The store is well formed and the endpoint's log starts with these documents. */
  ghost predicate StartsWith(db: Db, e: string, docs: seq<Json>) {
    WellFormed(db) && e in DocumentEndpoints(db) && docs <= Abs(db)[e]
  }

  lemma OpKeepsStart(db: Db, op: Op, e: string, docs: seq<Json>)
    requires StartsWith(db, e, docs) && Allowed(db, op) && op != Delete(e)
    ensures StartsWith(Apply(db, op).0, e, docs)
  {
    OpKeepsLog(db, op, e);
  }

  lemma {:induction false} RunKeepsStart(db: Db, run: seq<Op>, e: string, docs: seq<Json>)
    requires StartsWith(db, e, docs) && ValidRun(db, run) && NeverDeletes(run, e)
    ensures StartsWith(Run(db, run), e, docs)
    decreases |run|
  {
    if run != [] {
      assert run[0] != Delete(e);
      OpKeepsStart(db, run[0], e, docs);
      RunKeepsStart(Apply(db, run[0]).0, run[1..], e, docs);
    }
  }

  /** As long as an endpoint is not deleted, every document it holds keeps its id and its value. */
  lemma DocumentsPersist(db: Db, run: seq<Op>, e: string)
    requires WellFormed(db) && ValidRun(db, run) && e in DocumentEndpoints(db) && NeverDeletes(run, e)
    ensures WellFormed(Run(db, run)) && e in DocumentEndpoints(Run(db, run))
    ensures Abs(db)[e] <= Abs(Run(db, run))[e]
  {
    RunKeepsStart(db, run, e, Abs(db)[e]);
  }
}
