/**
 What every operation keeps: the catalogue of endpoints, dense object ids, and the index.
 */
module StoreInvariant {
  import opened Wrappers
  import opened Keys
  import opened Store

  /** Paths that user requests and user endpoints may have. */
  predicate Unreserved(path: string) {
    !("/__" <= path)
  }

  /** Everything the default family counts, except the count key. */
  function Endpoints(db: Db): set<string> {
    db.counters.Keys - {COUNT}
  }

  /** The endpoints that hold documents, not users or tokens. */
  function DocumentEndpoints(db: Db): set<string> {
    Endpoints(db) - {USERS, TOKENS}
  }

  const SYSTEM_HANDLES: set<string> := {ALL, ENDPOINTS, COUNT}

  function UrlOf(doc: Json): Option<string> {
    if doc.Obj? && "url" in doc.fields && doc.fields["url"].Str? then Some(doc.fields["url"].text) else None
  }

  /** Counters, descriptors, families and handles describe the same endpoints. */
  ghost predicate CatalogueOk(db: Db) {
    && COUNT in db.counters
    && USERS in db.counters && TOKENS in db.counters
    && db.handles == db.families.Keys
    && db.handles == Endpoints(db) + SYSTEM_HANDLES
    && (forall e :: e in Endpoints(db) ==> DescriptorKey(e) in FamilyOf(db, ENDPOINTS))
    && (forall k :: k in FamilyOf(db, ENDPOINTS) ==>
          ENDPOINTS <= k && k[|ENDPOINTS|..] in Endpoints(db) &&
          UrlOf(FamilyOf(db, ENDPOINTS)[k]) == Some(k[|ENDPOINTS|..]))
  }

  /** Nothing user-made is called like a part of the system, or like an object of an endpoint. */
  ghost predicate NamesOk(db: Db) {
    && (forall e :: e in DocumentEndpoints(db) ==> Unreserved(e) && e != DEFAULT)
    && (forall e, f, i: nat :: e in DocumentEndpoints(db) && f in DocumentEndpoints(db) ==> ObjectKey(e, i) != f)
  }

  function Count(db: Db, e: string): nat
    requires e in db.counters
  {
    Atoi(db.counters[e])
  }

  /** The counter is `n` in decimal and the objects are exactly `e/0` to `e/(n-1)`. */
  ghost predicate Dense(db: Db, e: string)
    requires e in db.counters
  {
    db.counters[e] == ToString(Count(db, e)) && FamilyOf(db, e).Keys == ObjectKeys(e, Count(db, e))
  }

  ghost predicate DenseOk(db: Db) {
    forall e :: e in DocumentEndpoints(db) ==> Dense(db, e)
  }

  /** Users and tokens have keys of their own, and the token family holds tokens. */
  ghost predicate SystemKeysOk(db: Db) {
    && (forall k :: k in FamilyOf(db, USERS) ==> USERS + "/" <= k)
    && (forall k :: k in FamilyOf(db, TOKENS) ==> TOKENS + "/" <= k && FromDynamic(FamilyOf(db, TOKENS)[k]).Some?)
  }

  /** Every object of every endpoint is in the index, with the same document. */
  ghost predicate Indexed(db: Db, e: string) {
    forall k :: k in FamilyOf(db, e) ==> k in Index(db) && Index(db)[k] == FamilyOf(db, e)[k]
  }

  ghost predicate IndexOk(db: Db) {
    forall e :: e in Endpoints(db) ==> Indexed(db, e)
  }

  /** Some endpoint's family holds an object under the key. */
  ghost predicate IsLive(db: Db, key: string) {
    exists e :: e in Endpoints(db) && key in FamilyOf(db, e)
  }

  /** The index holds nothing but the objects of the endpoints. */
  ghost predicate IndexExact(db: Db) {
    forall k :: k in Index(db) ==> IsLive(db, k)
  }

  ghost predicate WellFormed(db: Db) {
    CatalogueOk(db) && NamesOk(db) && DenseOk(db) && SystemKeysOk(db) && IndexOk(db)
  }

  // ---- Operations and when they are used ----

  datatype Op =
    | Add(path: string, now: int)
    | Delete(path: string)
    | Post(path: string, data: Json)
    | Put(path: string, data: Json)
    | Get(path: string)
    | GetAll(path: string)
    | SaveUser(name: string, doc: Json)
    | SaveToken(token: Token)
    | CleanTokens(now: int)

  ghost predicate NotNested(db: Db, path: string) {
    && (forall e, i: nat :: e in DocumentEndpoints(db) ==> ObjectKey(e, i) != path)
    && (forall e, i: nat :: e in DocumentEndpoints(db) ==> ObjectKey(path, i) != e)
  }

  ghost predicate Allowed(db: Db, op: Op) {
    match op
    case Add(path, _) => Unreserved(path) && IsFresh(db, path) && NotNested(db, path)
    case Delete(path) => Unreserved(path)
    case Post(path, _) => Unreserved(path) && CanCount(db, path)
    case Put(path, _) => Unreserved(path) && CanCount(db, path)
    case _ => true
  }

  ghost function Apply(db: Db, op: Op): (Db, Response)
    requires Allowed(db, op)
  {
    match op
    case Add(path, now) => (DoAddEndpoint(db, path, now), Done)
    case Delete(path) => DoDeleteEndpoint(db, path)
    case Post(path, data) => DoPost(db, path, data)
    case Put(path, data) => DoPut(db, path, data)
    case Get(path) => (db, DoGet(db, path))
    case GetAll(path) => (db, DoGetAll(db, path))
    case SaveUser(name, doc) => DoRawSave(db, UserKey(name), doc, USERS)
    case SaveToken(token) => DoRawSave(db, TokenKey(token.token), ToDynamic(token), TOKENS)
    case CleanTokens(now) => DoCleanTokens(db, now)
  }

  // ---- Storing an object ----

  /** A store operation, seen family by family. */
  lemma StoreObjectEffect(db: Db, family: string, key: string, doc: Json)
    requires db.handles == db.families.Keys && family in db.handles && ALL in db.handles && family != ALL
    ensures var t := StoreObject(db, family, key, doc);
            && t.counters == db.counters && t.handles == db.handles && t.families.Keys == db.families.Keys
            && FamilyOf(t, family) == FamilyOf(db, family)[key := doc]
            && Index(t) == Index(db)[key := doc]
            && (forall n :: n != family && n != ALL ==> FamilyOf(t, n) == FamilyOf(db, n))
  {
  }

  /** The key belongs to no other endpoint's family. */
  ghost predicate OwnKey(db: Db, family: string, key: string) {
    forall e :: e in Endpoints(db) && e != family ==> key !in FamilyOf(db, e)
  }

  lemma StoreObjectKeepsIndex(db: Db, t: Db, family: string, key: string, doc: Json)
    requires CatalogueOk(db) && IndexOk(db) && family in Endpoints(db) && family != ALL && OwnKey(db, family, key)
    requires t.counters.Keys == db.counters.Keys && t.families == StoreObject(db, family, key, doc).families
    ensures IndexOk(t)
  {
    StoreObjectEffect(db, family, key, doc);
    forall e | e in Endpoints(t) ensures Indexed(t, e) {
      assert e in Endpoints(db) && Indexed(db, e);
      assert ENDPOINTS != ALL;
      if e != family && e != ALL {
        assert FamilyOf(t, e) == FamilyOf(db, e);
      }
    }
  }

  lemma SystemNamesDiffer()
    ensures |ALL| == |COUNT| == 18 && ALL[3] != COUNT[3] && |ENDPOINTS| == 12
    ensures |USERS| == 8 && |TOKENS| == 9 && |DEFAULT| == 7
    ensures !Unreserved(ALL) && !Unreserved(ENDPOINTS) && !Unreserved(COUNT)
    ensures !Unreserved(USERS) && !Unreserved(TOKENS)
  {
  }

  /** The system's own names are not endpoints. */
  lemma SystemNamesAreNotEndpoints(db: Db)
    requires NamesOk(db)
    ensures ALL !in Endpoints(db) && ENDPOINTS !in Endpoints(db)
  {
    SystemNamesDiffer();
    assert ALL !in DocumentEndpoints(db) && ENDPOINTS !in DocumentEndpoints(db);
  }

  lemma ObjectKeyIsUnreserved(path: string, i: nat)
    requires Unreserved(path)
    ensures Unreserved(ObjectKey(path, i))
  {
    var k := ObjectKey(path, i);
    LastSlash(path, i);
    if |path| >= 3 {
      assert k[..3] == path[..3];
    } else if |path| == 0 {
      assert k[1] == ToString(i)[0];
    }
  }

  lemma UnreservedIsForeign(k: string)
    requires Unreserved(k)
    ensures !(USERS + "/" <= k) && !(TOKENS + "/" <= k)
  {
  }
}
