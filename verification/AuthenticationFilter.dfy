/**
 The authentication filter: it stands between a connection and a handler, and either
 passes every callback on or ends the handler's life and answers for it.
 */
module Authentication {
  import opened Wrappers
  import opened Store
  import opened StoreInvariant
  import Users

  /** What a request says about who makes it; a header may be missing. */
  datatype Headers = Headers(token: Option<string>, username: Option<string>)

  datatype ErrorCode = MalformedInput | ConnectionError(code: nat)

  datatype Callback =
    | OnRequest(headers: Headers)
    | OnBody(bytes: seq<nat>)
    | OnUpgrade(protocol: nat)
    | OnEOM
    | OnEgressPaused
    | OnEgressResumed
    | RequestComplete
    | OnError(error: ErrorCode)

  predicate Terminal(c: Callback) {
    c.RequestComplete? || c.OnError?
  }

  /** What becomes of the pair of headers, if both are there. */
  function VerdictOn(db: Db, h: Headers, now: int): Option<Users.Verdict> {
    if h.token.Some? && h.username.Some? then Some(Users.Validation(db, h.username.value, h.token.value, now)) else None
  }

  /** Both headers are there and the store does not accept the pair. */
  predicate Rejects(db: Db, h: Headers, now: int) {
    VerdictOn(db, h, now) == Some(Users.Denied)
  }

  /** An exception out of `onRequest`, which is `noexcept`, ends the server. */
  predicate Crashes(db: Db, h: Headers, now: int) {
    VerdictOn(db, h, now) == Some(Users.Escaped)
  }

  /** On a well-formed store no request ends the server, and a request is rejected
      exactly when both headers are there and the store does not accept the pair. */
  lemma RejectsIff(db: Db, h: Headers, now: int)
    requires WellFormed(db)
    ensures !Crashes(db, h, now)
    ensures Rejects(db, h, now) <==>
            h.token.Some? && h.username.Some? && !Users.Validates(db, h.username.value, h.token.value, now)
  {
    if h.token.Some? {
      Users.NothingEscapes(db, h.token.value);
    }
  }

  class AuthenticationFilter {
    const users: Users.UserManager

    var upstream: bool
    var downstream: bool
    var deletions: nat

    /** What the inner handler was told, and the status codes the filter itself answered with. */
    var inner: seq<Callback>
    var replies: seq<nat>

    constructor (users: Users.UserManager)
      ensures this.users == users
      ensures upstream && downstream && deletions == 0 && inner == [] && replies == []
    {
      this.users := users;
      upstream, downstream, deletions, inner, replies := true, true, 0, [], [];
    }

    /** The new state after one callback, given whether the request was rejected. */
    twostate predicate Passed(c: Callback, rejected: bool)
      reads this
    {
      && upstream == (old(upstream) && !rejected)
      && inner == old(inner) + (if rejected then [Callback.OnError(MalformedInput)]
                                else if old(upstream) then [c] else [])
      && replies == old(replies) + (if rejected then [401] else [])
      && downstream == (old(downstream) && !Terminal(c))
      && deletions == old(deletions) + if Terminal(c) then 1 else 0
    }

    method OnRequest(headers: Headers, now: int) returns (crashed: bool)
      requires upstream && downstream
      modifies this
      ensures crashed == Crashes(users.db.View(), headers, now)
      ensures crashed ==> unchanged(this)
      ensures !crashed ==> Passed(Callback.OnRequest(headers), Rejects(users.db.View(), headers, now))
    {
      crashed := false;
      var present := headers.token.Some? && headers.username.Some?;
      if present {
        var verdict := users.ValidateAccessToken(headers.username.value, headers.token.value, now);
        if verdict.Escaped? {
          return true;
        }
        if verdict.Denied? {
          inner := inner + [Callback.OnError(MalformedInput)];
          upstream := false;
          replies := replies + [401];
          return false;
        }
      }
      inner := inner + [Callback.OnRequest(headers)];
    }

    /** Body, upgrade, end of message, pause and resume go through as they are. */
    method Forward(c: Callback)
      requires !Terminal(c) && !c.OnRequest?
      modifies this
      ensures Passed(c, false)
    {
      if upstream {
        inner := inner + [c];
      }
    }

    /** The last callback, after which the filter deletes itself. */
    method Finish(c: Callback)
      requires Terminal(c) && deletions == 0
      modifies this
      ensures Passed(c, false)
    {
      downstream := false;
      if upstream {
        inner := inner + [c];
      }
      deletions := deletions + 1;
    }

    /** A whole connection: the request, then other callbacks, then one terminal one.  The inner
        handler sees all of it, or exactly one error and nothing else; the client gets a 401
        exactly in the second case; and handler and filter each end exactly once. */
    method Serve(headers: Headers, now: int, middle: seq<Callback>, last: Callback) returns (crashed: bool)
      requires upstream && downstream && deletions == 0 && inner == [] && replies == []
      requires forall i :: 0 <= i < |middle| ==>
                 !middle[i].RequestComplete? && !middle[i].OnError? && !middle[i].OnRequest?
      requires last.RequestComplete? || last.OnError?
      modifies this
      ensures crashed == Crashes(users.db.View(), headers, now)
      ensures crashed ==> unchanged(this)
      ensures var rejected := Rejects(users.db.View(), headers, now);
              !crashed ==>
              && inner == (if rejected then [Callback.OnError(MalformedInput)]
                           else [Callback.OnRequest(headers)] + middle + [last])
              && replies == (if rejected then [401] else [])
      ensures !crashed ==> deletions == 1 && !downstream
      ensures !crashed ==>
                forall i :: 0 <= i < |inner| ==> (inner[i].RequestComplete? || inner[i].OnError? <==> i == |inner| - 1)
    {
      crashed := OnRequest(headers, now);
      if crashed {
        return;
      }
      ghost var rejected, first := !upstream, inner;
      for i := 0 to |middle|
        invariant inner == first + (if rejected then [] else middle[..i])
        invariant upstream == !rejected && deletions == 0 && downstream
        invariant replies == if rejected then [401] else []
      {
        Forward(middle[i]);
      }
      Finish(last);
      assert middle[..|middle|] == middle;
    }
  }
}
