/**
 The document store: what its column families hold, and what each operation of the database
 manager does to them.

 The default family maps endpoint paths to counters and is kept apart here as `counters`; all
 other families are in `families`.  `handles` are the names for which the manager's map holds
 the handle of the family of that name.
 */
module Store {
  import opened Wrappers
  import opened Characters
  import opened Keys
  import Validations

  /** Parsed documents; `Time` is a date in the printed form that documents carry. */
  datatype Json =
    | Null
    | Str(text: string)
    | Num(value: int)
    | Bool(flag: bool)
    | Time(seconds: int)
    | Arr(items: seq<Json>)
    | Obj(fields: map<string, Json>)

  type Family = map<string, Json>

  const ENDPOINTS := "/__endpoints"
  const COUNT := "/__endpoints/count"
  const USERS := "/__users"
  const TOKENS := "/__tokens"
  const ALL := "/___all_objects___"
  const DEFAULT := "default"

  /** The largest counter the source's `int` can step past. */
  const INT_MAX := 0x7FFF_FFFF

  datatype Db = Db(counters: map<string, string>, families: map<string, Family>, handles: set<string>)

  datatype Error = NotAnObject | NotANumber | NoHandle | NotAnEndpoint | NoDate

  datatype Response =
    | Done
    | Ignored
    | Created(doc: Json)
    | Found(doc: Json)
    | Missing
    | Documents(docs: seq<Json>)
    | Failed(error: Error)

  // ---- Reading ----

  function FamilyOf(db: Db, name: string): Family {
    if name in db.families then db.families[name] else map[]
  }

  function Index(db: Db): Family {
    FamilyOf(db, ALL)
  }

  /** `is_endpoint` and `path_exists`: the default family has the key. */
  predicate IsEndpoint(db: Db, path: string) {
    path in db.counters
  }

  function Values(family: Family, keys: seq<string>): (docs: seq<Json>)
    requires forall k :: k in keys ==> k in family
    ensures |docs| == |keys| && forall i :: 0 <= i < |keys| ==> docs[i] == family[keys[i]]
  {
    if keys == [] then [] else
      assert forall k :: k in keys[1..] ==> k in keys;
      [family[keys[0]]] + Values(family, keys[1..])
  }

  /** What an iterator over a family yields. */
  ghost function Listing(family: Family): seq<Json> {
    Values(family, InOrder(family.Keys))
  }

  ghost function DoGetAll(db: Db, path: string): Response {
    if path in db.handles then Documents(Listing(FamilyOf(db, path))) else Failed(NoHandle)
  }

  function RawGet(db: Db, key: string, family: string): Response {
    if family !in db.handles then Failed(NoHandle)
    else if key in FamilyOf(db, family) then Found(FamilyOf(db, family)[key])
    else Missing
  }

  ghost function DoGet(db: Db, path: string): Response {
    if IsEndpoint(db, path) then DoGetAll(db, path) else RawGet(db, path, ALL)
  }

  // ---- Writing ----

  function PutIn(families: map<string, Family>, name: string, key: string, doc: Json): map<string, Family> {
    families[name := (if name in families then families[name] else map[])[key := doc]]
  }

  /** The pair of writes every object gets: into its family and into the index. */
  function StoreObject(db: Db, family: string, key: string, doc: Json): Db {
    db.(families := PutIn(PutIn(db.families, family, key, doc), ALL, key, doc))
  }

  function WithId(data: Json, id: string): Json
    requires data.Obj?
  {
    Obj(data.fields["ID" := Str(id)])
  }

  /** The counter of an endpoint can be stepped; beyond it the source's `int` overflows. */
  predicate CanCount(db: Db, path: string) {
    path in db.counters ==> Atoi(db.counters[path]) < INT_MAX
  }

  function DoPost(db: Db, path: string, data: Json): (Db, Response)
    requires CanCount(db, path)
  {
    if path !in db.counters then (db, Ignored)
    else if !data.Obj? then (db, Failed(NotAnObject))
    else if path !in db.handles || ALL !in db.handles then (db, Failed(NoHandle))
    else
      var id := db.counters[path];
      if DigitPrefix(id) == [] then (db, Failed(NotANumber))
      else
        var doc := WithId(data, id);
        (StoreObject(db, path, path + "/" + id, doc).(counters := db.counters[path := ToString(Atoi(id) + 1)]),
         Created(doc))
  }

  /** The three ways `put` can go. */
  datatype PutBranch = NoSuchPath | Transaction | IndexOnly

  function BranchOfPut(db: Db, path: string): PutBranch {
    if Validations.Sanitized(path) !in db.counters then NoSuchPath
    else if IsEndpoint(db, path) then Transaction
    else IndexOnly
  }

  /** What a committed `put` transaction does. */
  function CommitPut(db: Db, path: string, data: Json): Db
    requires path in db.counters && CanCount(db, path)
  {
    var id := Atoi(db.counters[path]);
    StoreObject(db, path, ObjectKey(path, id), data).(counters := db.counters[path := ToString(id + 1)])
  }

  function DoPut(db: Db, path: string, data: Json): (Db, Response)
    requires CanCount(db, path)
  {
    match BranchOfPut(db, path)
    case NoSuchPath => (db, Done)
    case Transaction =>
      if path !in db.handles || ALL !in db.handles then (db, Failed(NoHandle))
      else (CommitPut(db, path, data), Done)
    case IndexOnly =>
      if ALL !in db.handles then (db, Failed(NoHandle))
      else (db.(families := PutIn(db.families, ALL, path, data)), Done)
  }

  function DescriptorKey(path: string): string {
    ENDPOINTS + path
  }

  function Descriptor(id: int, path: string, now: int): Json {
    Obj(map["id" := Num(id), "url" := Str(path), "count" := Num(0), "created" := Time(now),
            "modified" := Time(now), "modification_user" := Str("admin"), "enabled" := Bool(true)])
  }

  /** Creating a column family that exists fails and leaves the handle undefined. */
  predicate IsFresh(db: Db, path: string) {
    path !in db.families && path != DEFAULT
  }

  function DescriptorId(db: Db): nat {
    if COUNT in db.counters then Atoi(db.counters[COUNT]) else 0
  }

  function DoAddEndpoint(db: Db, path: string, now: int): Db
    requires IsFresh(db, path)
  {
    var count := DescriptorId(db);
    Db(db.counters[COUNT := ToString(count)][path := "0"],
       PutIn(db.families[path := map[]], ENDPOINTS, DescriptorKey(path), Descriptor(count, path, now)),
       db.handles + {path})
  }

  /** The deletions of the objects go to the default family, not to the index. */
  function DoDeleteEndpoint(db: Db, path: string): (Db, Response) {
    if !IsEndpoint(db, path) then (db, Failed(NotAnEndpoint))
    else if ENDPOINTS !in db.handles then (db, Failed(NoHandle))
    else
      var objects := if path in db.handles then FamilyOf(db, path).Keys else {};
      (Db(db.counters - objects - {path},
          db.families[ENDPOINTS := FamilyOf(db, ENDPOINTS) - {DescriptorKey(path)}] - {path},
          db.handles - {path}),
       Done)
  }

  function GetEndpoint(db: Db, path: string): Response {
    RawGet(db, DescriptorKey(path), ENDPOINTS)
  }

  function DoRawSave(db: Db, key: string, doc: Json, family: string): (Db, Response) {
    if family !in db.handles || ALL !in db.handles then (db, Failed(NoHandle))
    else (StoreObject(db, family, key, doc), Done)
  }

  // ---- Access tokens ----

  datatype Token = Token(username: string, token: string, validUntil: int)

  function ToDynamic(t: Token): Json {
    Obj(map["username" := Str(t.username), "token" := Str(t.token), "valid_until" := Time(t.validUntil)])
  }

  function ValidUntil(doc: Json): Option<int> {
    if doc.Obj? && "valid_until" in doc.fields && doc.fields["valid_until"].Time?
    then Some(doc.fields["valid_until"].seconds)
    else None
  }

  /** `None` where the source throws.  The names are read through `c_str()`. */
  function FromDynamic(doc: Json): Option<Token> {
    if doc.Obj? && "username" in doc.fields && doc.fields["username"].Str?
       && "token" in doc.fields && doc.fields["token"].Str? && ValidUntil(doc).Some?
    then Some(Token(CString(doc.fields["username"].text), CString(doc.fields["token"].text), ValidUntil(doc).value))
    else None
  }

  /** A token as it comes back: its names are cut at their first NUL. */
  function AsRead(t: Token): Token {
    Token(CString(t.username), CString(t.token), t.validUntil)
  }

  /** A token comes back as it was exactly when there is no NUL in its names. */
  lemma TokenRoundTrip(t: Token)
    ensures FromDynamic(ToDynamic(t)) == Some(AsRead(t))
    ensures FromDynamic(ToDynamic(t)) == Some(t) <==> '\0' !in t.username && '\0' !in t.token
  {
    CStringIsWholeIff(t.username);
    CStringIsWholeIff(t.token);
  }

  function TokenKey(token: string): string {
    TOKENS + "/" + token
  }

  function UserKey(name: string): string {
    USERS + "/" + name
  }

  /** The token has run out at `now`, or runs out just then; only the date is looked at. */
  predicate Expired(doc: Json, now: int) {
    ValidUntil(doc).Some? && ValidUntil(doc).value <= now
  }

  /** A record without a readable date ends the clean-up before anything is deleted. */
  function DoCleanTokens(db: Db, now: int): (Db, Response) {
    var tokens := FamilyOf(db, TOKENS);
    if TOKENS !in db.handles || TOKENS !in db.families then (db, Failed(NoHandle))
    else if exists k :: k in tokens && ValidUntil(tokens[k]).None? then (db, Failed(NoDate))
    else
      (db.(families := db.families[TOKENS := map k | k in tokens && !Expired(tokens[k], now) :: tokens[k]]), Done)
  }
}
