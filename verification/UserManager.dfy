/**
 Access tokens and users over the store, and what a token is worth after any run.
 */
module Users {
  import opened Wrappers
  import opened Characters
  import opened Store
  import opened StoreInvariant
  import opened StoreProofs
  import Database

  /** Tokens run out five minutes after they are issued; dates count seconds. */
  const LIFETIME := 300

  function NewToken(username: string, random: string, now: int): Token {
    Token(username, random, now + LIFETIME)
  }

  /** `validate_access_token`: a token is still good in its last second. */
  predicate Validates(db: Db, username: string, token: string, now: int) {
    var r := RawGet(db, TokenKey(token), TOKENS);
    r.Found? && FromDynamic(r.doc).Some? &&
    var t := FromDynamic(r.doc).value;
    !(t.validUntil < now) && t.username == username
  }

  /** How an attempt to read a token record can end badly: only the first is caught. */
  datatype Fault = DomainError | OtherError

  /** The first thing that is wrong with a token record: a field that is missing, a date that is none,
      or a value of another type. */
  function FaultOf(doc: Json): Option<Fault> {
    if !doc.Obj? then Some(DomainError)
    else if "username" !in doc.fields then Some(OtherError)
    else if !doc.fields["username"].Str? then Some(DomainError)
    else if "token" !in doc.fields then Some(OtherError)
    else if !doc.fields["token"].Str? then Some(DomainError)
    else if "valid_until" !in doc.fields then Some(OtherError)
    else if doc.fields["valid_until"].Time? then None
    else if doc.fields["valid_until"].Str? then Some(OtherError)
    else Some(DomainError)
  }

  /** A record is read exactly when nothing is wrong with it. */
  lemma FaultIffUnread(doc: Json)
    ensures FaultOf(doc).None? <==> FromDynamic(doc).Some?
  {
  }

  datatype Verdict = Accepted | Denied | Escaped

  /** The attempt to look a token up or to read it throws what `validate_access_token` does not catch. */
  predicate Escapes(db: Db, token: string) {
    var r := RawGet(db, TokenKey(token), TOKENS);
    r.Failed? || (r.Found? && r.doc.Obj? && FaultOf(r.doc) == Some(OtherError))
  }

  function Validation(db: Db, username: string, token: string, now: int): Verdict {
    if Validates(db, username, token, now) then Accepted else if Escapes(db, token) then Escaped else Denied
  }

  /** What becomes of records that are not in order: of what is not an object, of an empty object,
      of a name that is no string, of a record without its date, and of a date that is none. */
  lemma BadRecords(db: Db, username: string, token: string, now: int)
    requires TOKENS in db.handles && TokenKey(token) in FamilyOf(db, TOKENS)
    ensures var doc, verdict := FamilyOf(db, TOKENS)[TokenKey(token)], Validation(db, username, token, now);
            && (!doc.Obj? ==> verdict == Denied)
            && (doc == Obj(map[]) ==> verdict == Escaped)
            && (forall n: int :: doc == Obj(map["username" := Num(n)]) ==> verdict == Denied)
            && (forall a, b: string :: doc == Obj(map["username" := Str(a), "token" := Str(b)]) ==> verdict == Escaped)
            && (forall a: string, n: int ::
                  doc == Obj(map["username" := Str(a), "token" := Num(n)]) ==> verdict == Denied)
            && (forall a, b, c: string ::
                  doc == Obj(map["username" := Str(a), "token" := Str(b), "valid_until" := Str(c)]) ==>
                    verdict == Escaped)
            && (forall a, b: string, n: int ::
                  doc == Obj(map["username" := Str(a), "token" := Str(b), "valid_until" := Num(n)]) ==>
                    verdict == Denied)
  {
  }

  /** Where there is no record, or no token family, nothing is accepted. */
  lemma NoRecord(db: Db, username: string, token: string, now: int)
    ensures TOKENS in db.handles && TokenKey(token) !in FamilyOf(db, TOKENS) ==>
              Validation(db, username, token, now) == Denied
    ensures TOKENS !in db.handles ==> Validation(db, username, token, now) == Escaped
  {
  }

  /** No exception escapes on a well-formed store. */
  lemma NothingEscapes(db: Db, token: string)
    requires WellFormed(db)
    ensures !Escapes(db, token)
  {
    SystemNamesDiffer();
  }

  function UserDoc(username: string, digest: string): Json {
    Obj(map["username" := Str(username), "password" := Str(digest), "is_active" := Bool(true)])
  }

  /** `authenticate`, given the digest of the password offered. */
  predicate Authenticates(db: Db, username: string, digest: string) {
    var r := RawGet(db, UserKey(username), USERS);
    r.Found? && r.doc.Obj? && "password" in r.doc.fields && r.doc.fields["password"] == Str(digest)
  }

  class UserManager {
    const db: Database.DbManager

    constructor (db: Database.DbManager)
      ensures this.db == db
    {
      this.db := db;
    }

    method GetAccessToken(username: string, random: string, now: int) returns (token: Token)
      modifies db
      ensures token == NewToken(username, random, now)
      ensures db.View() == DoRawSave(old(db.View()), TokenKey(random), ToDynamic(token), TOKENS).0
    {
      token := NewToken(username, random, now);
      var _ := db.RawSave(TOKENS + "/" + token.token, ToDynamic(token), TOKENS);
    }

    method ValidateAccessToken(username: string, token: string, now: int) returns (verdict: Verdict)
      ensures verdict == Validation(db.View(), username, token, now)
    {
      var found := RawGet(db.View(), TOKENS + "/" + token, TOKENS);
      if found.Failed? {
        return Escaped;
      }
      if found.Found? && found.doc.Obj? {
        var fault := FaultOf(found.doc);
        if fault.Some? {
          return if fault.value.DomainError? then Denied else Escaped;
        }
        FaultIffUnread(found.doc);
        var record := FromDynamic(found.doc).value;
        var expired := record.validUntil < now;
        if expired {
          return Denied;
        }
        return if record.username == username then Accepted else Denied;
      }
      return Denied;
    }

    method Authenticate(username: string, digest: string) returns (valid: bool)
      ensures valid == Authenticates(db.View(), username, digest)
    {
      var found := RawGet(db.View(), USERS + "/" + username, USERS);
      if found.Found? {
        return found.doc.Obj? && "password" in found.doc.fields && found.doc.fields["password"] == Str(digest);
      }
      return false;
    }

    method CreateUser(username: string, digest: string)
      modifies db
      ensures db.View() == DoRawSave(old(db.View()), UserKey(username), UserDoc(username, digest), USERS).0
    {
      var _ := db.RawSave(USERS + "/" + username, UserDoc(username, digest), USERS);
    }
  }

  // ---- Families that an operation does not name stay as they are ----

  /** The family an operation may change, besides the index and the descriptors. */
  function Target(op: Op): Option<string> {
    match op
    case Add(path, _) => Some(path)
    case Delete(path) => Some(path)
    case Post(path, _) => Some(path)
    case Put(path, _) => Some(path)
    case SaveUser(_, _) => Some(USERS)
    case SaveToken(_) => Some(TOKENS)
    case CleanTokens(_) => Some(TOKENS)
    case _ => None
  }

  lemma CommitTouchesTarget(db: Db, path: string, doc: Json, family: string)
    requires WellFormed(db) && Unreserved(path) && path in db.counters && CanCount(db, path)
    requires family != path && family != ALL
    ensures FamilyOf(CommitPut(db, path, doc), family) == FamilyOf(db, family)
  {
  }

  lemma WritesTouchTarget(db: Db, op: Op, family: string)
    requires WellFormed(db) && Allowed(db, op) && (op.Post? || op.Put?)
    requires family != op.path && family != ALL
    ensures FamilyOf(Apply(db, op).0, family) == FamilyOf(db, family)
  {
    if op.Post? && op.path in db.counters && op.data.Obj? {
      PostIsCommit(db, op.path, op.data);
      CommitTouchesTarget(db, op.path, WithId(op.data, db.counters[op.path]), family);
    } else if op.Put? && BranchOfPut(db, op.path).Transaction? {
      PutIsCommit(db, op.path, op.data);
      CommitTouchesTarget(db, op.path, op.data, family);
    }
  }

  /** The users and the tokens change through their own operations only. */
  lemma OpsTouchTarget(db: Db, op: Op, family: string)
    requires WellFormed(db) && Allowed(db, op) && (family == USERS || family == TOKENS) && Target(op) != Some(family)
    ensures FamilyOf(Apply(db, op).0, family) == FamilyOf(db, family)
  {
    SystemNamesDiffer();
    match op {
      case Add(path, now) => AddEffect(db, path, now);
      case Delete(path) =>
        if path in db.counters {
          DeleteEffect(db, path);
        }
      case Post(_, _) | Put(_, _) => WritesTouchTarget(db, op, family);
      case Get(_) | GetAll(_) =>
      case SaveUser(name, doc) =>
        SaveKeepsWellFormed(db, USERS, UserKey(name), doc);
        StoreObjectEffect(db, USERS, UserKey(name), doc);
      case SaveToken(token) =>
        TokenRoundTrip(token);
        SaveKeepsWellFormed(db, TOKENS, TokenKey(token.token), ToDynamic(token));
        StoreObjectEffect(db, TOKENS, TokenKey(token.token), ToDynamic(token));
      case CleanTokens(now) => CleanEffect(db, now);
    }
  }

  // ---- What the store knows of a token ----

  /** The record kept under a token, if any. */
  ghost function Record(db: Db, token: string): Option<Token> {
    if TokenKey(token) in FamilyOf(db, TOKENS) then FromDynamic(FamilyOf(db, TOKENS)[TokenKey(token)]) else None
  }

  /** Cleaning up changes an answer exactly for a token that was good up to this very second. */
  lemma CleaningChangesAnswersIff(db: Db, clean: int, username: string, token: string, now: int)
    requires WellFormed(db)
    ensures Validates(DoCleanTokens(db, clean).0, username, token, now) <==>
            Validates(db, username, token, now) && Record(db, token).value.validUntil > clean
  {
  }

  /** Hence at any strictly later time it changes none. */
  lemma CleaningChangesNothingLater(db: Db, clean: int, username: string, token: string, now: int)
    requires WellFormed(db) && clean < now
    ensures Validates(DoCleanTokens(db, clean).0, username, token, now) == Validates(db, username, token, now)
  {
  }

  // ---- Tokens over whole runs ----

  /** An operation and the time at which it ran. */
  datatype Timed = Timed(op: Op, at: int)

  function Ops(run: seq<Timed>): seq<Op> {
    if run == [] then [] else [run[0].op] + Ops(run[1..])
  }

  /** Tokens are issued and cleaned up by the clock. */
  ghost predicate WellTimed(run: seq<Timed>) {
    forall i :: 0 <= i < |run| ==>
      (run[i].op.SaveToken? ==> run[i].op.token.validUntil == run[i].at + LIFETIME) &&
      (run[i].op.CleanTokens? ==> run[i].op.now == run[i].at)
  }

  /** What is known of a token after one more operation. */
  function After(r: Option<Token>, op: Op, token: string): Option<Token> {
    match op
    case SaveToken(t) => if t.token == token then Some(AsRead(t)) else r
    case CleanTokens(now) => if r.Some? && r.value.validUntil <= now then None else r
    case _ => r
  }

  /** The latest record that no clean-up has removed. */
  function Latest(r: Option<Token>, run: seq<Timed>, token: string): Option<Token>
    decreases |run|
  {
    if run == [] then r else Latest(After(r, run[0].op, token), run[1..], token)
  }

  lemma SavedRecord(db: Db, t: Token, token: string)
    requires WellFormed(db)
    ensures Record(DoRawSave(db, TokenKey(t.token), ToDynamic(t), TOKENS).0, token) ==
            if t.token == token then Some(AsRead(t)) else Record(db, token)
  {
    SystemNamesDiffer();
    TokenRoundTrip(t);
    StoreObjectEffect(db, TOKENS, TokenKey(t.token), ToDynamic(t));
    assert TokenKey(t.token)[|TOKENS| + 1..] == t.token && TokenKey(token)[|TOKENS| + 1..] == token;
  }

  lemma OpKeepsRecord(db: Db, op: Op, token: string)
    requires WellFormed(db) && Allowed(db, op)
    ensures Record(Apply(db, op).0, token) == After(Record(db, token), op, token)
  {
    match op {
      case SaveToken(t) => SavedRecord(db, t, token);
      case CleanTokens(now) => CleanEffect(db, now);
      case _ => OpsTouchTarget(db, op, TOKENS);
    }
  }

  /** The store knows of a token exactly what its history says. */
  lemma {:induction false} RunKeepsRecord(db: Db, run: seq<Timed>, token: string)
    requires WellFormed(db) && ValidRun(db, Ops(run))
    ensures Record(Run(db, Ops(run)), token) == Latest(Record(db, token), run, token)
    decreases |run|
  {
    if run != [] {
      assert Ops(run)[0] == run[0].op && Ops(run)[1..] == Ops(run[1..]);
      OpKeepsRecord(db, run[0].op, token);
      OpKeepsWellFormed(db, run[0].op);
      RunKeepsRecord(Apply(db, run[0].op).0, run[1..], token);
    }
  }

  predicate Good(r: Option<Token>, username: string, now: int) {
    r.Some? && r.value.username == username && now <= r.value.validUntil
  }

  predicate Issues(t: Timed, token: string) {
    t.op.SaveToken? && t.op.token.token == token
  }

  /** The last operation of the run that issues the token. */
  ghost predicate IsLastIssue(run: seq<Timed>, i: int, token: string) {
    0 <= i < |run| && Issues(run[i], token) && forall j :: i < j < |run| ==> !Issues(run[j], token)
  }

  /** Every clean-up in the run ran before `now`. */
  ghost predicate CleanedBefore(run: seq<Timed>, now: int) {
    forall i :: 0 <= i < |run| && run[i].op.CleanTokens? ==> run[i].at < now
  }

  /** At a later time, clean-ups do not matter: only the last issue does. */
  lemma {:induction false} LatestMeans(r: Option<Token>, run: seq<Timed>, token: string, username: string, now: int)
    requires WellTimed(run) && CleanedBefore(run, now)
    ensures Good(Latest(r, run, token), username, now) <==>
            if exists i :: IsLastIssue(run, i, token) then
              exists i :: IsLastIssue(run, i, token) && Good(Some(AsRead(run[i].op.token)), username, now)
            else Good(r, username, now)
    decreases |run|
  {
    if run != [] {
      var rest := run[1..];
      LatestMeans(After(r, run[0].op, token), rest, token, username, now);
      if i :| IsLastIssue(rest, i, token) {
        LastIssueShifts(run, i, token);
        OnlyOneLast(run, i + 1, token);
        OnlyOneLast(rest, i, token);
      } else {
        NoIssueLater(run, token);
      }
    }
  }

  lemma LastIssueShifts(run: seq<Timed>, i: int, token: string)
    requires run != [] && IsLastIssue(run[1..], i, token)
    ensures IsLastIssue(run, i + 1, token)
  {
  }

  lemma OnlyOneLast(run: seq<Timed>, i: int, token: string)
    requires IsLastIssue(run, i, token)
    ensures forall j :: IsLastIssue(run, j, token) ==> j == i
  {
  }

  lemma {:induction false} SomeLastIssue(run: seq<Timed>, i: int, token: string)
    requires 0 <= i < |run| && Issues(run[i], token)
    ensures exists j :: IsLastIssue(run, j, token)
    decreases |run| - i
  {
    if j :| i < j < |run| && Issues(run[j], token) {
      SomeLastIssue(run, j, token);
    } else {
      assert IsLastIssue(run, i, token);
    }
  }

  lemma NoIssueLater(run: seq<Timed>, token: string)
    requires run != [] && !exists i :: IsLastIssue(run[1..], i, token)
    ensures forall i :: IsLastIssue(run, i, token) ==> i == 0
    ensures IsLastIssue(run, 0, token) <==> Issues(run[0], token)
  {
    forall j | 1 <= j < |run| ensures !Issues(run[j], token) {
      if Issues(run[j], token) {
        assert run[1..][j - 1] == run[j];
        SomeLastIssue(run[1..], j - 1, token);
      }
    }
  }

  /** After any run, at any time: a token is accepted for a user exactly when the latest record
      that no clean-up removed was issued to that user and has not run out. */
  lemma TokenIsValidIff(db: Db, run: seq<Timed>, username: string, token: string, now: int)
    requires WellFormed(db) && ValidRun(db, Ops(run))
    ensures Validates(Run(db, Ops(run)), username, token, now) <==>
            Good(Latest(Record(db, token), run, token), username, now)
  {
    RunKeepsRecord(db, run, token);
    RunKeepsWellFormed(db, Ops(run));
    GoodIsValid(Run(db, Ops(run)), username, token, now);
  }

  /** After any run, whatever else it did, a token is accepted for a user exactly when it was last
      issued to that user and its five minutes are not over. */
  lemma TokenIsAcceptedIff(db: Db, run: seq<Timed>, username: string, token: string, now: int)
    requires WellFormed(db) && ValidRun(db, Ops(run)) && WellTimed(run) && CleanedBefore(run, now) &&
             Record(db, token) == None
    ensures Validates(Run(db, Ops(run)), username, token, now) <==>
            exists i :: IsLastIssue(run, i, token) &&
              CString(run[i].op.token.username) == username && now <= run[i].at + 300
  {
    TokenIsValidIff(db, run, username, token, now);
    LatestMeans(None, run, token, username, now);
  }

  lemma GoodIsValid(db: Db, username: string, token: string, now: int)
    requires WellFormed(db)
    ensures Validates(db, username, token, now) <==> Good(Record(db, token), username, now)
  {
  }

  /** The store after a token was issued. */
  function Issued(db: Db, username: string, random: string, now: int): Db {
    DoRawSave(db, TokenKey(random), ToDynamic(NewToken(username, random, now)), TOKENS).0
  }

  /** The record of an issued token, field by field. */
  lemma IssuedIsStored(db: Db, username: string, random: string, now: int)
    requires WellFormed(db)
    ensures RawGet(Issued(db, username, random, now), TOKENS + "/" + random, TOKENS) ==
            Found(Obj(map["username" := Str(username), "token" := Str(random), "valid_until" := Time(now + 300)]))
  {
    SystemNamesDiffer();
    StoreObjectEffect(db, TOKENS, TokenKey(random), ToDynamic(NewToken(username, random, now)));
  }

  /** A fresh token is good for one name only, which is the user's up to its first NUL: so it is good
      for the very user it was issued to exactly when there is no NUL in that user's name. */
  lemma FreshTokenIsAcceptedIff(db: Db, username: string, random: string, issued: int, name: string, now: int)
    requires WellFormed(db)
    ensures var t := Issued(db, username, random, issued);
            && WellFormed(t)
            && (Validates(t, name, random, now) <==> name == CString(username) && now <= issued + 300)
            && (Validates(t, username, random, now) <==> '\0' !in username && now <= issued + 300)
  {
    var t, token := Issued(db, username, random, issued), NewToken(username, random, issued);
    TokenRoundTrip(token);
    SaveKeepsWellFormed(db, TOKENS, TokenKey(random), ToDynamic(token));
    SavedRecord(db, token, random);
    GoodIsValid(t, name, random, now);
    GoodIsValid(t, username, random, now);
    CStringIsWholeIff(username);
  }

  /** A token issued to `bob`, NUL, `x` is bob's. */
  lemma CutNameIsAccepted()
    ensures var t := Issued(OPENED, "bob\0x", "tok", 0);
            Validates(t, "bob", "tok", 0) && !Validates(t, "bob\0x", "tok", 0)
  {
    OpenedIsWellFormed();
    CutName();
    FreshTokenIsAcceptedIff(OPENED, "bob\0x", "tok", 0, "bob", 0);
  }

  lemma CutName()
    ensures CString("bob\0x") == "bob" && '\0' in "bob\0x"
  {
    var name := "bob\0x";
    assert name[3] == '\0' && CString(name[3..]) == [];
    assert CString(name[2..]) == "b" && CString(name[1..]) == "ob";
  }

  /** In its last second a token is good, until a clean-up comes. */
  lemma LastSecondIsCleaned()
    ensures var t := Issued(OPENED, "bob", "tok", 0);
            Validates(t, "bob", "tok", 300) &&
            !Validates(DoCleanTokens(t, 300).0, "bob", "tok", 300)
  {
    OpenedIsWellFormed();
    CStringIsWholeIff("bob");
    FreshTokenIsAcceptedIff(OPENED, "bob", "tok", 0, "bob", LIFETIME);
    SavedRecord(OPENED, NewToken("bob", "tok", 0), "tok");
    CleaningChangesAnswersIff(Issued(OPENED, "bob", "tok", 0), LIFETIME, "bob", "tok", LIFETIME);
  }

  // ---- Users ----

  /** The record kept under a user's name, if any. */
  ghost function UserRecord(db: Db, name: string): Option<Json> {
    if UserKey(name) in FamilyOf(db, USERS) then Some(FamilyOf(db, USERS)[UserKey(name)]) else None
  }

  /** A user's record after a run: the last one saved, if any was. */
  function LatestUser(r: Option<Json>, run: seq<Op>, name: string): Option<Json>
    decreases |run|
  {
    if run == [] then r
    else LatestUser(if run[0].SaveUser? && run[0].name == name then Some(run[0].doc) else r, run[1..], name)
  }

  lemma SavedUser(db: Db, saved: string, doc: Json, name: string)
    requires WellFormed(db)
    ensures UserRecord(DoRawSave(db, UserKey(saved), doc, USERS).0, name) ==
            if saved == name then Some(doc) else UserRecord(db, name)
  {
    SystemNamesDiffer();
    StoreObjectEffect(db, USERS, UserKey(saved), doc);
    assert UserKey(saved)[|USERS| + 1..] == saved && UserKey(name)[|USERS| + 1..] == name;
  }

  lemma OpKeepsUser(db: Db, op: Op, name: string)
    requires WellFormed(db) && Allowed(db, op)
    ensures UserRecord(Apply(db, op).0, name) ==
            if op.SaveUser? && op.name == name then Some(op.doc) else UserRecord(db, name)
  {
    if op.SaveUser? {
      SavedUser(db, op.name, op.doc, name);
      assert Apply(db, op) == DoRawSave(db, UserKey(op.name), op.doc, USERS);
    } else {
      OpsTouchTarget(db, op, USERS);
    }
  }

  lemma {:induction false} RunKeepsUser(db: Db, run: seq<Op>, name: string)
    requires WellFormed(db) && ValidRun(db, run)
    ensures WellFormed(Run(db, run)) && UserRecord(Run(db, run), name) == LatestUser(UserRecord(db, name), run, name)
    decreases |run|
  {
    if run != [] {
      OpKeepsUser(db, run[0], name);
      OpKeepsWellFormed(db, run[0]);
      RunKeepsUser(Apply(db, run[0]).0, run[1..], name);
    }
  }

  predicate HasPassword(r: Option<Json>, digest: string) {
    r.Some? && r.value.Obj? && "password" in r.value.fields && r.value.fields["password"] == Str(digest)
  }

  lemma AuthenticatesByRecord(db: Db, name: string, digest: string)
    requires WellFormed(db)
    ensures Authenticates(db, name, digest) <==> HasPassword(UserRecord(db, name), digest)
  {
    SystemNamesDiffer();
  }

  /** After any run a name and a digest authenticate if and only if the record last saved under that name
      carries that digest; nobody authenticates under a name that was never saved. */
  lemma AuthenticatesIff(db: Db, run: seq<Op>, name: string, digest: string)
    requires WellFormed(db) && ValidRun(db, run)
    ensures Authenticates(Run(db, run), name, digest) <==>
            HasPassword(LatestUser(UserRecord(db, name), run, name), digest)
    ensures UserRecord(db, name) == None && (forall i :: 0 <= i < |run| && run[i].SaveUser? ==> run[i].name != name) ==>
              !Authenticates(Run(db, run), name, digest)
  {
    RunKeepsUser(db, run, name);
    AuthenticatesByRecord(Run(db, run), name, digest);
    if forall i :: 0 <= i < |run| && run[i].SaveUser? ==> run[i].name != name {
      NeverSaved(UserRecord(db, name), run, name);
    }
  }

  lemma {:induction false} NeverSaved(r: Option<Json>, run: seq<Op>, name: string)
    requires forall i :: 0 <= i < |run| && run[i].SaveUser? ==> run[i].name != name
    ensures LatestUser(r, run, name) == r
    decreases |run|
  {
    if run != [] {
      NeverSaved(r, run[1..], name);
    }
  }

  /** The record of a created user, field by field, and that of any other user as it was. */
  lemma CreatedUserIsStored(db: Db, username: string, digest: string, other: string)
    requires WellFormed(db)
    ensures var t := DoRawSave(db, UserKey(username), UserDoc(username, digest), USERS).0;
            && UserRecord(t, username) ==
               Some(Obj(map["username" := Str(username), "password" := Str(digest), "is_active" := Bool(true)]))
            && (other != username ==> UserRecord(t, other) == UserRecord(db, other))
  {
    SavedUser(db, username, UserDoc(username, digest), username);
    SavedUser(db, username, UserDoc(username, digest), other);
  }

  /** A created user authenticates with the password it was created with, and with no other digest. */
  lemma CreatedUserAuthenticates(db: Db, username: string, digest: string, offered: string)
    requires WellFormed(db)
    ensures var t := DoRawSave(db, UserKey(username), UserDoc(username, digest), USERS).0;
            WellFormed(t) && (Authenticates(t, username, offered) <==> offered == digest)
  {
    SystemNamesDiffer();
    SaveKeepsWellFormed(db, USERS, UserKey(username), UserDoc(username, digest));
    StoreObjectEffect(db, USERS, UserKey(username), UserDoc(username, digest));
  }
}
