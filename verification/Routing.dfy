/**
 The way of a document request: the factory's gate, and what the handler does with the store.
 */
module Routing {
  import opened Characters
  import opened Keys
  import opened Store
  import opened StoreInvariant
  import opened StoreProofs
  import opened StoreTheorems
  import opened StoreAgreement
  import Validations
  import Database
  import Users

  datatype Method = GET | POST | PUT | DELETE | OPTIONS | OTHER

  /** A request as it arrives: its raw path, and its parsed body where it has one. */
  datatype Request = Request(method_: Method, path: string, body: Json)

  /** `Uncaught` stands for an exception that leaves the event loop, so that no reply is sent. */
  datatype Reply =
    | IndexPage
    | JsonReply(status: nat, doc: Json)
    | Plain(status: nat)
    | Uncaught

  // ---- The gate ----

  /** Who handles a request: the document handler, the handler that the next factory offered, or a refusal. */
  datatype Route = DocumentHandler | NextHandler | Refusal

  predicate Admitted(rawPath: string) {
    Validations.IsValidPath(Validations.Sanitized(rawPath))
  }

  method RouteRequest(rawPath: string, next: bool) returns (route: Route)
    ensures route.DocumentHandler? <==> Admitted(rawPath)
    ensures route.NextHandler? <==> !Admitted(rawPath) && next
  {
    var path := Validations.SanitizePath(rawPath);
    if Validations.IsValidPath(path) {
      route := DocumentHandler;
    } else if next {
      route := NextHandler;
    } else {
      route := Refusal;
    }
  }

  /** What the gate lets through never names a part of the system. */
  lemma AdmittedIsUnreserved(rawPath: string)
    requires Admitted(rawPath)
    ensures Unreserved(Validations.Sanitized(rawPath))
  {
    var path := Validations.Sanitized(rawPath);
    var c := CString(path);
    Validations.ValidPathMeans(path);
    assert c[0] == '/';
    assert |path| >= 2 ==> path[1] == if |c| >= 2 then c[1] else '\0';
  }

  /** The gate in plain characters: two slashes, or a slash, a letter, and then any characters that are seen. */
  lemma AdmittedIff(rawPath: string)
    requires '\0' !in rawPath
    ensures Admitted(rawPath) <==>
            rawPath == "//" ||
            (|rawPath| >= 2 && rawPath[0] == '/' && ('A' <= rawPath[1] <= 'Z' || 'a' <= rawPath[1] <= 'z') &&
             forall i :: 2 <= i < |rawPath| ==> '!' <= rawPath[i] <= '~')
  {
    var path := Validations.Sanitized(rawPath);
    Validations.ValidPathMeans(path);
    Validations.SanitizedMeans(rawPath);
    CStringIsWholeIff(path);
    assert rawPath == "//" <==> path == "/" && |rawPath| == 2;
  }

  /** The documents of an admitted endpoint can be asked for one by one. */
  lemma ObjectIsAdmitted(path: string, i: nat)
    requires '\0' !in path && Admitted(path) && path != "//"
    ensures Admitted(ObjectKey(path, i))
  {
    var key, id := ObjectKey(path, i), ToString(i);
    AdmittedIff(path);
    assert '\0' !in id;
    forall n | 2 <= n < |key| ensures '!' <= key[n] <= '~' {
      assert key[n] == if n < |path| then path[n] else if n == |path| then '/' else id[n - |path| - 1];
    }
    AdmittedIff(key);
  }

  // ---- The handler ----

  /** The counter that a `post` or `put` on the path would step can be stepped. */
  predicate CanServe(db: Db, method_: Method, path: string) {
    method_ == POST || method_ == PUT ==> CanCount(db, path)
  }

  /** What a request with this method, normalised path and body does to the store. */
  function Effect(db: Db, method_: Method, path: string, body: Json): Db
    requires CanServe(db, method_, path)
  {
    match method_
    case POST => DoPost(db, path, body).0
    case PUT => DoPut(db, path, body).0
    case _ => db
  }

  /** The document that goes back: what the store answered, or else what the client sent. */
  function Payload(response: Response, sent: Json): Json {
    match response
    case Documents(docs) => Arr(docs)
    case Found(doc) => doc
    case Created(doc) => doc
    case _ => sent
  }

  /** What the client is sent. */
  ghost function ReplyTo(db: Db, method_: Method, path: string, body: Json): Reply
    requires CanServe(db, method_, path)
  {
    match method_
    case GET =>
      if path == "" then IndexPage else
        var found := DoGet(db, path);
        if found.Failed? then if IsEndpoint(db, path) then Plain(500) else Uncaught
        else if found.Missing? then Plain(404)
        else JsonReply(200, Payload(found, body))
    case POST =>
      var response := DoPost(db, path, body).1;
      if response.Failed? then Plain(400) else JsonReply(201, Payload(response, body))
    case PUT => if DoPut(db, path, body).1.Failed? then Uncaught else JsonReply(200, body)
    case DELETE => Plain(if path == "" then 500 else 200)
    case OPTIONS => Plain(200)
    case OTHER => Plain(500)
  }

  predicate Countable(db: Db, r: Request) {
    CanServe(db, r.method_, Validations.Sanitized(r.path))
  }

  function DoRequest(db: Db, r: Request): Db
    requires Countable(db, r)
  {
    Effect(db, r.method_, Validations.Sanitized(r.path), r.body)
  }

  ghost function DoReply(db: Db, r: Request): Reply
    requires Countable(db, r)
  {
    ReplyTo(db, r.method_, Validations.Sanitized(r.path), r.body)
  }

  class RestDbRequestHandler {
    const db: Database.DbManager
    var method_: Method
    var path: string

    constructor (db: Database.DbManager)
      ensures this.db == db
    {
      this.db, method_, path := db, GET, "";
    }

    method OnRequest(r: Request)
      modifies this
      ensures method_ == r.method_ && path == Validations.Sanitized(r.path)
    {
      method_ := r.method_;
      path := Validations.SanitizePath(r.path);
    }

    /** The whole request is here: one store operation, chosen by the method. */
    method OnEOM(body: Json) returns (reply: Reply)
      requires CanServe(db.View(), method_, path)
      modifies db
      ensures db.View() == Effect(old(db.View()), method_, path, body)
      ensures reply == ReplyTo(old(db.View()), method_, path, body)
    {
      match method_ {
        case GET =>
          if path == "" {
            return IndexPage;
          }
          var endpoint := db.ScanForEndpoint(path);
          if endpoint {
            var all := db.GetAll(path);
            return if all.Failed? then Plain(500) else JsonReply(200, Payload(all, body));
          }
          var found := db.Get(path);
          if found.Failed? {
            return Uncaught;
          }
          return if found.Missing? then Plain(404) else JsonReply(200, Payload(found, body));
        case POST =>
          var response := db.Post(path, body);
          return if response.Failed? then Plain(400) else JsonReply(201, Payload(response, body));
        case PUT =>
          var response := db.Put(path, body);
          return if response.Failed? then Uncaught else JsonReply(200, body);
        case DELETE =>
          return Plain(if path == "" then 500 else 200);
        case OPTIONS =>
          return Plain(200);
        case OTHER =>
          return Plain(500);
      }
    }
  }

  // ---- What the client gets ----

  /** The root never reaches the handler: without its slash it is no valid path. */
  lemma RootIsNeverAdmitted(rawPath: string)
    requires Admitted(rawPath)
    ensures Validations.Sanitized(rawPath) != ""
  {
    Validations.ValidPathMeans(Validations.Sanitized(rawPath));
  }

  lemma RootIsRefused()
    ensures !Admitted("/") && Admitted("//")
  {
    assert Validations.Sanitized("/") == "" && Validations.Sanitized("//") == "/";
    Validations.ValidPathMeans("");
    Validations.ValidPathMeans("/");
    assert CString("/") == "/" by {
      CStringIsWholeIff("/");
    }
  }

  /** What the handler would answer for the root, if it were reached: its page, and that it keeps it. */
  lemma RootReplies(db: Db, r: Request)
    requires Countable(db, r) && Validations.Sanitized(r.path) == ""
    ensures r.method_ == GET ==> DoReply(db, r) == IndexPage
    ensures r.method_ == DELETE ==> DoReply(db, r) == Plain(500) && DoRequest(db, r) == db
  {
  }

  lemma WritesAreAnswered(db: Db, r: Request)
    requires WellFormed(db) && Unreserved(Validations.Sanitized(r.path)) && Countable(db, r)
    ensures r.method_ == PUT ==> DoReply(db, r) == JsonReply(200, r.body)
    ensures r.method_ == POST && r.body.Obj? ==>
              DoReply(db, r) == JsonReply(201,
                if Validations.Sanitized(r.path) in db.counters
                then WithId(r.body, db.counters[Validations.Sanitized(r.path)]) else r.body)
  {
    var path := Validations.Sanitized(r.path);
    if r.method_ == PUT && BranchOfPut(db, path).Transaction? {
      PutIsCommit(db, path, r.body);
    } else if r.method_ == POST && r.body.Obj? && path in db.counters {
      PostIsCommit(db, path, r.body);
    }
  }

  /** On a store without a handle it needs: a listing answers 500 and a `post` 400, but what `get` of a
      document or `put` throws leaves the event loop. */
  lemma MissingHandleReplies(db: Db, r: Request)
    requires Countable(db, r) && Validations.Sanitized(r.path) != ""
    ensures var path, reply := Validations.Sanitized(r.path), DoReply(db, r);
            && (r.method_ == GET && path in db.counters && path !in db.handles ==> reply == Plain(500))
            && (r.method_ == GET && path !in db.counters && ALL !in db.handles ==> reply == Uncaught)
            && (r.method_ == POST && path in db.counters && path !in db.handles ==> reply == Plain(400))
            && (r.method_ == PUT && BranchOfPut(db, path).Transaction? && path !in db.handles ==> reply == Uncaught)
  {
  }

  lemma ReadsAreAnswered(db: Db, r: Request)
    requires WellFormed(db) && r.method_ == GET && Validations.Sanitized(r.path) != ""
    ensures !DoReply(db, r).Uncaught? && !DoReply(db, r).IndexPage? && DoReply(db, r) != Plain(500)
  {
  }

  /** On a well-formed store every admitted request is answered: no exception escapes, the index page
      is never sent, and a `put` or a denied `post` sends the client its own document back. */
  lemma AdmittedIsAnswered(db: Db, r: Request)
    requires WellFormed(db) && Admitted(r.path) && Countable(db, r)
    ensures !DoReply(db, r).Uncaught? && !DoReply(db, r).IndexPage?
    ensures r.method_ == GET ==> DoReply(db, r) != Plain(500)
    ensures r.method_ == PUT ==> DoReply(db, r) == JsonReply(200, r.body)
    ensures r.method_ == POST && r.body.Obj? && Validations.Sanitized(r.path) !in db.counters ==>
              DoReply(db, r) == JsonReply(201, r.body)
  {
    AdmittedIsUnreserved(r.path);
    RootIsNeverAdmitted(r.path);
    WritesAreAnswered(db, r);
    if r.method_ == GET {
      ReadsAreAnswered(db, r);
    }
  }

  /** What an admitted request does to the logs: a `post` and a `put` what they mean, any other nothing. */
  lemma EffectMeans(db: Db, r: Request)
    requires WellFormed(db) && Admitted(r.path) && Countable(db, r)
    ensures var path, t := Validations.Sanitized(r.path), DoRequest(db, r);
            && WellFormed(t)
            && (r.method_ == POST ==> Abs(t) == AbsApply(Abs(db), Op.Post(path, r.body)).0)
            && (r.method_ == PUT ==> Abs(t) == AbsApply(Abs(db), Op.Put(path, r.body)).0)
            && (r.method_ != POST && r.method_ != PUT ==> t == db)
  {
    AdmittedIsUnreserved(r.path);
    if r.method_ == POST {
      PostRefines(db, Validations.Sanitized(r.path), r.body);
    } else if r.method_ == PUT {
      PutRefines(db, Validations.Sanitized(r.path), r.body);
    }
  }

  lemma FoundIsSent(db: Db, path: string, body: Json, found: Response)
    requires path != "" && DoGet(db, path) == found && (found.Found? || found.Documents?)
    ensures ReplyTo(db, GET, path, body) == JsonReply(200, if found.Found? then found.doc else Arr(found.docs))
  {
  }

  lemma ListLogMeans(a: Abstract, path: string)
    requires path in a
    ensures var log, found := a[path], ListLog(a, path);
            && found.Documents? && multiset(found.docs) == multiset(log)
            && found.docs == Values(ToFamily(path, log), InOrder(ObjectKeys(path, |log|)))
  {
    ListingIsLogInKeyOrder(path, a[path]);
  }

  /** A GET of an endpoint is sent all its documents, each once, in the order of their keys. */
  lemma EndpointIsSent(db: Db, r: Request)
    requires WellFormed(db) && Admitted(r.path) && r.method_ == GET && Validations.Sanitized(r.path) in Abs(db)
    ensures var path, reply := Validations.Sanitized(r.path), DoReply(db, r);
            var log := Abs(db)[path];
            && reply.JsonReply? && reply.status == 200 && reply.doc.Arr?
            && multiset(reply.doc.items) == multiset(log)
            && reply.doc.items == Values(ToFamily(path, log), InOrder(ObjectKeys(path, |log|)))
  {
    var path := Validations.Sanitized(r.path);
    RootIsNeverAdmitted(r.path);
    ListingRefines(db, path);
    ListLogMeans(Abs(db), path);
    FoundIsSent(db, path, r.body, ListLog(Abs(db), path));
  }

  /** A GET of a document's key is sent that document. */
  lemma DocumentIsSent(db: Db, r: Request, e: string, i: nat)
    requires WellFormed(db) && Admitted(r.path) && r.method_ == GET
    requires e in Abs(db) && i < |Abs(db)[e]| && Validations.Sanitized(r.path) == ObjectKey(e, i)
    ensures DoReply(db, r) == JsonReply(200, Abs(db)[e][i])
  {
    RootIsNeverAdmitted(r.path);
    GetFindsObject(db, e, i);
    FoundIsSent(db, Validations.Sanitized(r.path), r.body, Found(Abs(db)[e][i]));
  }

  /** A GET of any other path is answered with a 404 where the index is exact. */
  lemma NothingIsSent(db: Db, r: Request)
    requires WellFormed(db) && IndexExact(db) && Admitted(r.path) && r.method_ == GET
    requires var path := Validations.Sanitized(r.path); path !in Abs(db) && !IsObject(Abs(db), path)
    ensures DoReply(db, r) == Plain(404)
  {
    AdmittedIsUnreserved(r.path);
    RootIsNeverAdmitted(r.path);
    ExactGet(db, Validations.Sanitized(r.path));
  }

  /** The replies to everything but a GET. */
  lemma OthersAreAnswered(db: Db, r: Request)
    requires WellFormed(db) && Admitted(r.path) && Countable(db, r)
    ensures var path, reply := Validations.Sanitized(r.path), DoReply(db, r);
            match r.method_
            case GET => true
            case POST =>
              reply ==
              if path !in Abs(db) then JsonReply(201, r.body)
              else if r.body.Obj? then JsonReply(201, Obj(r.body.fields["ID" := Str(ToString(|Abs(db)[path]|))]))
              else Plain(400)
            case PUT => reply == JsonReply(200, r.body)
            case DELETE => reply == Plain(200)
            case OPTIONS => reply == Plain(200)
            case OTHER => reply == Plain(500)
  {
    var path := Validations.Sanitized(r.path);
    AdmittedIsUnreserved(r.path);
    RootIsNeverAdmitted(r.path);
    WritesAreAnswered(db, r);
    if r.method_ == POST {
      DocumentEndpointIff(db, path);
      if path in db.counters {
        WellFormedEndpoint(db, path);
      }
    }
  }

  // ---- Namespace separation ----

  ghost predicate AdmittedRun(db: Db, requests: seq<Request>)
    decreases |requests|
  {
    requests == [] ||
    (Admitted(requests[0].path) && Countable(db, requests[0]) && AdmittedRun(DoRequest(db, requests[0]), requests[1..]))
  }

  ghost function Serve(db: Db, requests: seq<Request>): Db
    requires AdmittedRun(db, requests)
    decreases |requests|
  {
    if requests == [] then db else Serve(DoRequest(db, requests[0]), requests[1..])
  }

  /** Users, tokens and descriptors are the same, the endpoints are the same, and so is every
      index entry whose key a part of the system owns. */
  ghost predicate SystemUntouched(db: Db, t: Db) {
    && FamilyOf(t, USERS) == FamilyOf(db, USERS)
    && FamilyOf(t, TOKENS) == FamilyOf(db, TOKENS)
    && FamilyOf(t, ENDPOINTS) == FamilyOf(db, ENDPOINTS)
    && t.counters.Keys == db.counters.Keys && t.handles == db.handles
    && (forall k :: !Unreserved(k) ==> (k in Index(t) <==> k in Index(db)))
    && (forall k :: !Unreserved(k) && k in Index(db) ==> Index(t)[k] == Index(db)[k])
  }

  lemma CommitLeavesSystem(db: Db, path: string, doc: Json)
    requires WellFormed(db) && Unreserved(path) && path in db.counters && CanCount(db, path)
    ensures SystemUntouched(db, CommitPut(db, path, doc))
  {
    SystemNamesDiffer();
    WellFormedEndpoint(db, path);
    ObjectKeyIsUnreserved(path, Count(db, path));
    StoreObjectEffect(db, path, ObjectKey(path, Count(db, path)), doc);
  }

  lemma PostLeavesSystem(db: Db, path: string, data: Json)
    requires WellFormed(db) && Unreserved(path) && CanCount(db, path)
    ensures SystemUntouched(db, DoPost(db, path, data).0)
  {
    if path in db.counters && data.Obj? {
      PostIsCommit(db, path, data);
      CommitLeavesSystem(db, path, WithId(data, db.counters[path]));
    }
  }

  lemma IndexWriteLeavesSystem(db: Db, path: string, data: Json)
    requires db.handles == db.families.Keys && ALL in db.handles && Unreserved(path)
    ensures SystemUntouched(db, db.(families := PutIn(db.families, ALL, path, data)))
  {
  }

  lemma PutLeavesSystem(db: Db, path: string, data: Json)
    requires WellFormed(db) && Unreserved(path) && CanCount(db, path)
    ensures SystemUntouched(db, DoPut(db, path, data).0)
  {
    match BranchOfPut(db, path) {
      case NoSuchPath =>
      case Transaction =>
        PutIsCommit(db, path, data);
        CommitLeavesSystem(db, path, data);
      case IndexOnly =>
        IndexWriteLeavesSystem(db, path, data);
    }
  }

  lemma RequestLeavesSystem(db: Db, r: Request)
    requires WellFormed(db) && Admitted(r.path) && Countable(db, r)
    ensures WellFormed(DoRequest(db, r)) && SystemUntouched(db, DoRequest(db, r))
  {
    AdmittedIsUnreserved(r.path);
    var path := Validations.Sanitized(r.path);
    if r.method_ == POST {
      OpKeepsWellFormed(db, Op.Post(path, r.body));
      PostLeavesSystem(db, path, r.body);
    } else if r.method_ == PUT {
      OpKeepsWellFormed(db, Op.Put(path, r.body));
      PutLeavesSystem(db, path, r.body);
    }
  }

  /** No sequence of admitted requests, of any method and on any path, reaches the system's families. */
  lemma {:induction false} RequestsLeaveSystem(db: Db, requests: seq<Request>)
    requires WellFormed(db) && AdmittedRun(db, requests)
    ensures WellFormed(Serve(db, requests)) && SystemUntouched(db, Serve(db, requests))
    decreases |requests|
  {
    if requests != [] {
      RequestLeavesSystem(db, requests[0]);
      RequestsLeaveSystem(DoRequest(db, requests[0]), requests[1..]);
    }
  }

  /** In particular they change no answer about a token and no password. */
  lemma RequestsChangeNoCredentials(db: Db, requests: seq<Request>, username: string, token: string,
                                    digest: string, now: int)
    requires WellFormed(db) && AdmittedRun(db, requests)
    ensures var t := Serve(db, requests);
            Users.Validates(t, username, token, now) == Users.Validates(db, username, token, now) &&
            Users.Authenticates(t, username, digest) == Users.Authenticates(db, username, digest)
  {
    RequestsLeaveSystem(db, requests);
  }
}
