/**
 What clients read back: the documents they sent, field by field, and the descriptors of endpoints.
 */
module StoreAnswers {
  import opened Wrappers
  import opened Keys
  import opened Store
  import opened StoreInvariant
  import opened StoreProofs
  import opened StoreTheorems
  import Validations

  // ---- Documents ----

  /** Every field of a posted object comes back, in the answer and from the store, with the id beside them. */
  lemma PostKeepsFields(db: Db, path: string, fields: map<string, Json>)
    requires WellFormed(db) && Allowed(db, Post(path, Obj(fields))) && path in db.counters
    ensures var (t, response) := DoPost(db, path, Obj(fields));
            var n := Count(db, path);
            && response.Created? && response.doc.Obj?
            && DoGet(t, ObjectKey(path, n)) == Found(response.doc)
            && response.doc.fields.Keys == fields.Keys + {"ID"}
            && response.doc.fields["ID"] == Str(ToString(n))
            && (forall k :: k in fields && k != "ID" ==> response.doc.fields[k] == fields[k])
  {
    var n, doc := Count(db, path), WithId(Obj(fields), db.counters[path]);
    WellFormedEndpoint(db, path);
    PostIsCommit(db, path, Obj(fields));
    CommittedIsFound(db, path, doc);
  }

  /** A committed document is found under the id it got, and the next id is the next number. */
  lemma CommittedIsFound(db: Db, path: string, doc: Json)
    requires WellFormed(db) && path in DocumentEndpoints(db) && CanCount(db, path)
    ensures var t, n := CommitPut(db, path, doc), Count(db, path);
            && DoGet(t, ObjectKey(path, n)) == Found(doc) && path in t.counters && Count(t, path) == n + 1
  {
    var t, n := CommitPut(db, path, doc), Count(db, path);
    CommitKeepsWellFormed(db, path, doc);
    CommitAppends(db, path, doc);
    assert Abs(t)[path] == Abs(db)[path] + [doc];
    assert |Abs(db)[path]| == n;
    GetFindsObject(t, path, n);
  }

  /** A document that is put to an endpoint is found as it was sent. */
  lemma PutKeepsDocument(db: Db, path: string, data: Json)
    requires WellFormed(db) && Allowed(db, Put(path, data)) && BranchOfPut(db, path).Transaction?
    ensures path in db.counters
    ensures var (t, response) := DoPut(db, path, data);
            response == Done && DoGet(t, ObjectKey(path, Count(db, path))) == Found(data)
  {
    WellFormedEndpoint(db, path);
    PutIsCommit(db, path, data);
    CommittedIsFound(db, path, data);
  }

  /** The index-only write of `put` is read back under its path, and changes no other answer. */
  lemma IndexOnlyIsRead(db: Db, path: string, data: Json, other: string)
    requires WellFormed(db) && Unreserved(path) && BranchOfPut(db, path).IndexOnly?
    ensures var (t, response) := DoPut(db, path, data);
            && response == Done && DoGet(t, path) == Found(data)
            && (other != path ==> DoGet(t, other) == DoGet(db, other))
  {
    SystemNamesAreNotEndpoints(db);
    SystemNamesDiffer();
    var t := DoPut(db, path, data).0;
    assert t == db.(families := PutIn(db.families, ALL, path, data));
    assert other in db.counters ==> FamilyOf(t, other) == FamilyOf(db, other);
  }

  // ---- Descriptors ----

  /** The descriptor of an added endpoint, field by field; its id is the global count, which stays,
      and no other descriptor changes. */
  lemma AddedDescriptor(db: Db, path: string, now: int, other: string)
    requires WellFormed(db) && Allowed(db, Add(path, now))
    ensures var t := DoAddEndpoint(db, path, now);
            && COUNT in t.counters && Atoi(t.counters[COUNT]) == Atoi(db.counters[COUNT])
            && GetEndpoint(t, path) == Found(Obj(map[
                 "id" := Num(Atoi(db.counters[COUNT])), "url" := Str(path), "count" := Num(0),
                 "created" := Time(now), "modified" := Time(now),
                 "modification_user" := Str("admin"), "enabled" := Bool(true)]))
            && (other != path ==> GetEndpoint(t, other) == GetEndpoint(db, other))
  {
    AddEffect(db, path, now);
    AtoiToString(Atoi(db.counters[COUNT]));
    DescriptorKeyStrips(path);
    DescriptorKeyStrips(other);
    assert path != COUNT by {
      SystemNamesDiffer();
    }
  }

  function IdOf(response: Response): Option<Json> {
    if response.Found? && response.doc.Obj? && "id" in response.doc.fields then Some(response.doc.fields["id"])
    else None
  }

  lemma AddedId(db: Db, path: string, now: int, other: string)
    requires WellFormed(db) && Allowed(db, Add(path, now))
    ensures var t := DoAddEndpoint(db, path, now);
            && COUNT in t.counters && Atoi(t.counters[COUNT]) == Atoi(db.counters[COUNT])
            && IdOf(GetEndpoint(t, path)) == Some(Num(Atoi(db.counters[COUNT])))
            && (other != path ==> IdOf(GetEndpoint(t, other)) == IdOf(GetEndpoint(db, other)))
  {
    AddedDescriptor(db, path, now, other);
  }

  lemma AddsAreDistinct(db: Db, path: string, now: int, other: string, later: int)
    requires WellFormed(db) && Allowed(db, Add(path, now)) && Allowed(DoAddEndpoint(db, path, now), Add(other, later))
    ensures path != other && WellFormed(DoAddEndpoint(db, path, now))
  {
    AddKeepsWellFormed(db, path, now);
    AddEffect(db, path, now);
  }

  /** Two endpoints that are added one after the other get one id. */
  lemma DescriptorIdsRepeat(db: Db, path: string, other: string, now: int, later: int)
    requires WellFormed(db) && Allowed(db, Add(path, now)) && Allowed(DoAddEndpoint(db, path, now), Add(other, later))
    ensures var t := DoAddEndpoint(DoAddEndpoint(db, path, now), other, later);
            path != other && IdOf(GetEndpoint(t, path)) == IdOf(GetEndpoint(t, other)) != None
  {
    AddsAreDistinct(db, path, now, other, later);
    AddedId(db, path, now, other);
    AddedId(DoAddEndpoint(db, path, now), other, later, path);
  }

  // ---- Stores that are not in order ----

  /** Without a handle an operation fails, and leaves everything as it was. */
  lemma MissingHandles(db: Db, path: string, data: Json, key: string, family: string)
    requires CanCount(db, path)
    ensures path !in db.handles ==> DoGetAll(db, path) == Failed(NoHandle)
    ensures path !in db.counters && ALL !in db.handles ==> DoGet(db, path) == Failed(NoHandle)
    ensures path in db.counters && data.Obj? && (path !in db.handles || ALL !in db.handles) ==>
              DoPost(db, path, data) == (db, Failed(NoHandle))
    ensures BranchOfPut(db, path).Transaction? && (path !in db.handles || ALL !in db.handles) ==>
              DoPut(db, path, data) == (db, Failed(NoHandle))
    ensures BranchOfPut(db, path).IndexOnly? && ALL !in db.handles ==> DoPut(db, path, data) == (db, Failed(NoHandle))
    ensures family !in db.handles || ALL !in db.handles ==> DoRawSave(db, key, data, family) == (db, Failed(NoHandle))
    ensures path in db.counters && ENDPOINTS !in db.handles ==> DoDeleteEndpoint(db, path) == (db, Failed(NoHandle))
  {
  }

  /** What is no object cannot be posted; a counter that is no number stops a `post`;
      and an unreadable date stops a clean-up. */
  lemma BadInputs(db: Db, path: string, data: Json, now: int, k: string, text: string)
    requires CanCount(db, path)
    ensures path in db.counters && !data.Obj? ==> DoPost(db, path, data) == (db, Failed(NotAnObject))
    ensures path in db.counters && data.Obj? && path in db.handles && ALL in db.handles &&
            (db.counters[path] == "" || !('0' <= db.counters[path][0] <= '9')) ==>
              DoPost(db, path, data) == (db, Failed(NotANumber))
    ensures TOKENS in db.handles && TOKENS in db.families && k in FamilyOf(db, TOKENS) &&
            FamilyOf(db, TOKENS)[k] == Obj(map["valid_until" := Str(text)]) ==>
              DoCleanTokens(db, now) == (db, Failed(NoDate))
  {
    if TOKENS in db.families && k in FamilyOf(db, TOKENS) {
      assert ValidUntil(Obj(map["valid_until" := Str(text)])).None?;
    }
  }

  /** Where there is no global count yet, the first descriptor gets id 0 and the count becomes 0. */
  lemma AddWithoutCount(db: Db, path: string, now: int)
    requires IsFresh(db, path) && COUNT !in db.counters && ENDPOINTS in db.handles && path != COUNT && path != ENDPOINTS
    ensures var t := DoAddEndpoint(db, path, now);
            COUNT in t.counters && t.counters[COUNT] == "0" && IdOf(GetEndpoint(t, path)) == Some(Num(0))
  {
    assert ToString(0) == "0";
  }
}
