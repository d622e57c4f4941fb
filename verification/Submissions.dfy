/**
 What takes effect is what clients asked for: the table of transactions, the pending `post`s and the
 log hold the paths and documents with which their writers began.
 */
module Submissions {
  import opened Store
  import opened Transactions
  import opened TransactionProofs

  /** A client asked for this `put`. */
  ghost predicate Began(run: seq<Action>, t: nat, path: string, data: Json) {
    Begin(t, path, data) in run
  }

  predicate Concerns(a: Action, p: nat) {
    (a.PostRead? || a.PostWrite?) && a.p == p
  }

  ghost predicate ReadAt(run: seq<Action>, i: int, p: nat, path: string, data: Json) {
    0 <= i < |run| && run[i] == PostRead(p, path, data)
  }

  /** The last that was heard of the `post` is that a client asked for it. */
  ghost predicate Asked(run: seq<Action>, p: nat, path: string, data: Json) {
    exists i :: ReadAt(run, i, p, path, data) && forall k :: i < k < |run| ==> !Concerns(run[k], p)
  }

  /** The `post` that a client asked for at `i` is written at `j`. */
  ghost predicate WrittenAt(run: seq<Action>, i: int, j: int, p: nat, path: string, data: Json) {
    ReadAt(run, i, p, path, data) && i < j < |run| && run[j] == PostWrite(p, true) &&
    forall k :: i < k < j ==> !Concerns(run[k], p)
  }

  /** A client asked for what the event did: a `put` of this document to this path, or a `post` of it
      that was then written. */
  ghost predicate Submitted(run: seq<Action>, event: Event) {
    match event
    case Put(t, path, data, _) => Began(run, t, path, data)
    case Post(path, data, _) => exists p, i, j :: WrittenAt(run, i, j, p, path, data)
  }

  ghost predicate TableSubmitted(run: seq<Action>, txns: map<nat, Txn>) {
    forall t :: t in txns ==> Began(run, t, txns[t].path, txns[t].data)
  }

  ghost predicate PostsSubmitted(run: seq<Action>, posts: map<nat, Pending>) {
    forall p :: p in posts ==> Asked(run, p, posts[p].path, posts[p].data)
  }

  ghost predicate LogSubmitted(run: seq<Action>, log: seq<Event>) {
    forall i :: 0 <= i < |log| ==> Submitted(run, log[i])
  }

  ghost predicate AllSubmitted(run: seq<Action>, s: State) {
    TableSubmitted(run, s.txns) && PostsSubmitted(run, s.posts) && LogSubmitted(run, s.log)
  }

  // ---- One more action ----

  lemma StaysSubmitted(run: seq<Action>, a: Action, event: Event)
    requires Submitted(run, event)
    ensures Submitted(run + [a], event)
  {
    if event.Put? {
      var i :| 0 <= i < |run| && run[i] == Begin(event.txn, event.path, event.data);
      assert (run + [a])[i] == run[i];
    } else {
      var p, i, j :| WrittenAt(run, i, j, p, event.path, event.data);
      assert WrittenAt(run + [a], i, j, p, event.path, event.data);
    }
  }

  lemma StaysAsked(run: seq<Action>, a: Action, p: nat, path: string, data: Json)
    requires Asked(run, p, path, data) && !Concerns(a, p)
    ensures Asked(run + [a], p, path, data)
  {
    var i :| ReadAt(run, i, p, path, data) && forall k :: i < k < |run| ==> !Concerns(run[k], p);
    assert ReadAt(run + [a], i, p, path, data);
  }

  lemma NowAsked(run: seq<Action>, p: nat, path: string, data: Json)
    ensures Asked(run + [PostRead(p, path, data)], p, path, data)
  {
    assert ReadAt(run + [PostRead(p, path, data)], |run|, p, path, data);
  }

  lemma NowWritten(run: seq<Action>, p: nat, path: string, data: Json, id: nat)
    requires Asked(run, p, path, data)
    ensures Submitted(run + [PostWrite(p, true)], Event.Post(path, data, id))
  {
    var i :| ReadAt(run, i, p, path, data) && forall k :: i < k < |run| ==> !Concerns(run[k], p);
    assert WrittenAt(run + [PostWrite(p, true)], i, |run|, p, path, data);
  }

  /** A transaction keeps the path and the document with which it began. */
  lemma StepKeepsTable(s: State, a: Action, t: nat)
    requires Enabled(s, a) && t in Step(s, a).txns
    ensures var txn := Step(s, a).txns[t];
            a == Begin(t, txn.path, txn.data) ||
            (t in s.txns && txn.path == s.txns[t].path && txn.data == s.txns[t].data)
  {
  }

  lemma StepKeepsPending(s: State, a: Action, p: nat)
    requires Enabled(s, a) && p in Step(s, a).posts
    ensures var post := Step(s, a).posts[p];
            a == PostRead(p, post.path, post.data) || (p in s.posts && post == s.posts[p] && !Concerns(a, p))
  {
  }

  lemma TableStaysSubmitted(run: seq<Action>, s: State, a: Action)
    requires TableSubmitted(run, s.txns) && Enabled(s, a)
    ensures TableSubmitted(run + [a], Step(s, a).txns)
  {
    forall t | t in Step(s, a).txns
      ensures Began(run + [a], t, Step(s, a).txns[t].path, Step(s, a).txns[t].data)
    {
      StepKeepsTable(s, a, t);
      if a == Begin(t, Step(s, a).txns[t].path, Step(s, a).txns[t].data) {
        assert (run + [a])[|run|] == a;
      } else {
        StaysSubmitted(run, a, Event.Put(t, s.txns[t].path, s.txns[t].data, 0));
      }
    }
  }

  lemma PostsStaySubmitted(run: seq<Action>, s: State, a: Action)
    requires PostsSubmitted(run, s.posts) && Enabled(s, a)
    ensures PostsSubmitted(run + [a], Step(s, a).posts)
  {
    forall p | p in Step(s, a).posts
      ensures Asked(run + [a], p, Step(s, a).posts[p].path, Step(s, a).posts[p].data)
    {
      StepKeepsPending(s, a, p);
      if a == PostRead(p, Step(s, a).posts[p].path, Step(s, a).posts[p].data) {
        NowAsked(run, p, a.path, a.data);
      } else {
        StaysAsked(run, a, p, s.posts[p].path, s.posts[p].data);
      }
    }
  }

  lemma LogGainsSubmitted(run: seq<Action>, s: State, a: Action, event: Event)
    requires LogSubmitted(run, s.log) && Enabled(s, a) && Step(s, a).log == s.log + [event]
    requires Submitted(run + [a], event)
    ensures LogSubmitted(run + [a], Step(s, a).log)
  {
    forall i | 0 <= i < |s.log| ensures Submitted(run + [a], s.log[i]) {
      StaysSubmitted(run, a, s.log[i]);
    }
  }

  lemma LogStaysSubmitted(run: seq<Action>, s: State, a: Action)
    requires AllSubmitted(run, s) && Enabled(s, a)
    ensures LogSubmitted(run + [a], Step(s, a).log)
  {
    if !Writes(a) {
      QuietKeepsStore(s, a);
      forall i | 0 <= i < |s.log| ensures Submitted(run + [a], s.log[i]) {
        StaysSubmitted(run, a, s.log[i]);
      }
    } else if a.Commit? {
      var event := Event.Put(a.t, s.txns[a.t].path, s.txns[a.t].data, s.txns[a.t].id);
      StaysSubmitted(run, a, event);
      LogGainsSubmitted(run, s, a, event);
    } else {
      var post := s.posts[a.p];
      NowWritten(run, a.p, post.path, post.data, post.id);
      LogGainsSubmitted(run, s, a, Event.Post(post.path, post.data, post.id));
    }
  }

  lemma {:induction false} RunSubmits(past: seq<Action>, s: State, run: seq<Action>)
    requires AllSubmitted(past, s) && ValidRun(s, run)
    ensures AllSubmitted(past + run, Run(s, run))
    decreases |run|
  {
    if run == [] {
      assert past + run == past;
    } else {
      TableStaysSubmitted(past, s, run[0]);
      PostsStaySubmitted(past, s, run[0]);
      LogStaysSubmitted(past, s, run[0]);
      RunSubmits(past + [run[0]], Step(s, run[0]), run[1..]);
      assert past + [run[0]] + run[1..] == past + run;
    }
  }

  /** Over every run, stale or not: every transaction has the path and the document of its own beginning,
      and every event in the log did what a client had asked for, with the client's own document. */
  lemma WritesAreSubmitted(start: Db, run: seq<Action>)
    requires ValidRun(Initial(start), run)
    ensures var s := Run(Initial(start), run);
            && (forall t :: t in s.txns ==> Began(run, t, s.txns[t].path, s.txns[t].data))
            && (forall i :: 0 <= i < |s.log| ==> Submitted(run, s.log[i]))
  {
    RunSubmits([], Initial(start), run);
    assert [] + run == run;
  }
}
