# Proofs for restdbxx

A Dafny model of the parts of restdbxx that are hard to get right, with proofs of what they promise:

- the static file handler, whose callbacks on the event-base thread and whose reader job on the CPU
  executor share three flags and a file pointer (`StreamProtocol.dfy`, `StreamProofs.dfy`,
  `StreamTheorems.dfy`, `StreamCallbacks.dfy`, `FileServerRequestHandler.dfy`);
- the document store, whose counters, column families, index, descriptors and handles must agree
  (`Keys.dfy`, `Store.dfy`, `StoreInvariant.dfy`, `StoreProofs.dfy`, `StoreTheorems.dfy`,
  `StoreAgreement.dfy`, `StoreAnswers.dfy`, `DbManager.dfy`);
- concurrent writers: `put` transactions and two-step `post`s, interleaved (`Transactions.dfy`,
  `TransactionProofs.dfy`, `Submissions.dfy`, `TransactionTheorems.dfy`, `Serializability.dfy`,
  `TransactionProgress.dfy`);
- the greedy recognisers for paths and e-mail addresses (`Characters.dfy`, `Grammar.dfy`, `Validations.dfy`);
- access tokens and users (`UserManager.dfy`), the authentication filter (`AuthenticationFilter.dfy`),
  and the gate and handler of document requests (`Routing.dfy`).

`dafny verify dfyconfig.toml` verifies everything.

## How the model is built

**Streaming.** A state holds the handler's fields, the file's content and offset, the executor's jobs,
the event base's queue and what was sent. Event-base callbacks and posted closures are atomic steps; a
job is cut at every access to shared state, so a pause can fall between the test of `paused_` and the
read. The jobs are a sequence: that there is never more than one is a theorem. Deletions are counted,
and steps on a deleted handler are not excluded by definition: that there are none is a theorem. Of the
environment it is assumed that the event base's queue is first in, first out; that a read returns an
error, 0 exactly at the end, or at least one of the bytes left and at most as many as the buffer has room
for, which is 4000 or more, as the allocator pleases; and that
`onRequest` comes at most once and a terminal callback at most once, with nothing after it. Pauses,
resumptions and the terminal callback may come at any time, before the request too: the authentication
filter sends the handler of a rejected request an error and nothing else. The class
`FileServerRequestHandler` has the source's callbacks and its reader loop; its `Valid()` says that the
object is where some run of the protocol leads, so every method is proved to take protocol steps only.

**Store.** RocksDB is finite maps with iteration in bytewise key order and atomic batches. `Store.dfy`
says what each operation does to the whole store, the class `DbManager` has the operations as the
source runs them, with their loops and in-place updates, each proved to do just that, and the lemmas
are about those functions. `WellFormed` is what every operation keeps: counters, descriptors, families
and handles name the same endpoints; an endpoint's counter is `n` in decimal and its object keys are
exactly `path/0` to `path/(n-1)`; users and tokens have keys of their own; every object is in the index
with the same document. Endpoints are added under fresh, unreserved names of which none is an object
key of another; users, tokens and clean-ups may come in between.

**Writers.** A `put` transaction takes five steps, each of which but the first can fail and roll back;
locks are held until commit or rollback; `post` reads its counter and writes its batch in two steps.

## What the code does that one might not expect

- A directory listing never clears the flag that says a job is scheduled, so its handler is never
  deleted (`DrainedIsDeleted`, `ListingIsNeverDeleted`, and a run in `ListingIsLeftBehind`).
- Two `post`s to one endpoint that read before either writes get the same id, and the second document
  replaces the first (`PostsCanCollide`). A `post` acts as one step if and only if its counter has not
  moved in between (`BatchIsPostIff`), and a run is serializable if and only if that holds of every `post`
  in it (`SerializableIff`). `put` alone is always serializable.
- A token is read back through `c_str()`, so the name it was issued to is cut at its first NUL: a token
  issued to `bob`, NUL, `x` is accepted for `bob` and rejected for its owner (`CutNameIsAccepted`). A fresh
  token is good for the very user it was issued to if and only if there is no NUL in that user's name
  (`FreshTokenIsAcceptedIff`).
- Deleting an endpoint deletes its objects from the wrong family: they stay in the index and can still
  be looked up one by one (`DeletedObjectsStayReachable`, `OrphanIsFound`). The index stays exact if and
  only if the operation is not one of those that leave orphans (`IndexStaysExactIff`).
- `put` to an endpoint whose name ends in a slash does nothing at all unless the name without the slash
  is an endpoint too (`PutStoresIff`, `PutIsDropped`).
- If one endpoint's name is an object key of another, deleting the other takes away its counter and
  leaves its handle and descriptor (`DeleteKeepsCatalogueIff`, `NestedEndpointLosesItsCounter`).
- Cleaning up tokens changes an answer exactly for a token in its last second, which `cleanTokens`
  counts as over and `validate_access_token` as good (`CleaningChangesAnswersIff`, `LastSecondIsCleaned`).
- The path `/` is normalised to nothing, which is no valid path, so the handler's index page and its
  refusal to delete the root are never reached (`RootIsNeverAdmitted`, `RootIsRefused`).
- The global endpoint count never moves, so endpoints added one after the other get one id
  (`AddedDescriptor`, `DescriptorIdsRepeat`).
- Normalising a path twice differs from doing it once exactly when it ends in two slashes, and the
  factory, the handler and `put` each normalise once (`SanitizeTwice`).

## Model

| member | source | states |
|---|---|---|
| FileServer.FileServerRequestHandler.OnRequest | FileServerRequestHandler.cpp:22-64 | 400 for other methods, 404 for a file that cannot be opened, else a 200 head, the flag set and one job; a protocol step |
| FileServer.FileServerRequestHandler.CheckForCompletion | FileServerRequestHandler.cpp:129-136 | deletes, and says so, exactly when finished and no job is scheduled |
| FileServer.FileServerRequestHandler.Resume | FileServerRequestHandler.cpp:143-155 | clears the pause and starts a job exactly when none is scheduled and the file is open |
| FileServer.FileServerRequestHandler.OnEgressPaused | FileServerRequestHandler.cpp:137-142 | the pause step of the protocol |
| FileServer.FileServerRequestHandler.OnEgressResumed | FileServerRequestHandler.cpp:143-155 | the resume step of the protocol |
| FileServer.FileServerRequestHandler.RequestComplete | FileServerRequestHandler.cpp:74-79 | the terminal step: finished, paused, deleted if no job is scheduled |
| FileServer.FileServerRequestHandler.OnError | FileServerRequestHandler.cpp:80-85 | the same terminal step for an error |
| FileServer.FileServerRequestHandler.Notified | FileServerRequestHandler.cpp:121-127 | the closure after the loop: clears the flag, then deletes, or resumes if not paused |
| FileServer.FileServerRequestHandler.RunTask | FileServerRequestHandler.cpp:96-127 | the event base runs the oldest posted closure: chunk, end, abort, notification or listing |
| FileServer.FileServerRequestHandler.Close | FileServerRequestHandler.cpp:92-109 | closes the file before it posts the end or the abort, whatever the event base does in between |
| FileServer.FileServerRequestHandler.ReadNoInt | FileServerRequestHandler.cpp:90-92 | a read takes exactly the next bytes of the file, and moves the offset by as many |
| FileServer.FileServerRequestHandler.ReadChunk | FileServerRequestHandler.cpp:88-118 | one turn of the loop either makes progress in the file or ends with the file closed |
| FileServer.FileServerRequestHandler.ReadFile | FileServerRequestHandler.cpp:86-128 | under every schedule and every outcome of the reads the loop ends, having taken protocol steps only, with its notification posted last |
| FileServer.FileServerRequestHandler.ListFiles | FileServerRequestHandler.cpp:159-192 | posts the listing and ends without a notification |
| StreamProofs.StepKeepsInv | FileServerRequestHandler.cpp:22-192 | every step of either thread keeps the invariant of flags, file pointer, job, queue and stream |
| StreamProofs.RunKeepsInv | FileServerRequestHandler.cpp:22-192 | so does every run |
| StreamTheorems.StreamIsPrefix | FileServerRequestHandler.cpp:86-128 | bytes delivered, queued and in the reader's hands are exactly the first `offset` bytes of the file, in pieces that are not empty and fit the buffer |
| StreamTheorems.QuiescentIsFinal | FileServerRequestHandler.cpp:88-127 | with no job, no closure and no pause the client has one head, the whole file and one end, or one head, a prefix and one abort, never both |
| StreamTheorems.DrainDelivers | FileServerRequestHandler.cpp:86-128 | from every unpaused reachable state every way of finishing the internal steps is bounded and reaches exactly one of these endings |
| StreamTheorems.DrainDeletes | FileServerRequestHandler.cpp:74-85 | after the terminal callback every way of finishing the internal steps is bounded and ends with exactly one deletion, unless a directory was listed |
| StreamTheorems.NoUseAfterDelete | FileServerRequestHandler.cpp:129-136 | at most one deletion, and after it no job, no closure and no callback is left to touch the handler |
| StreamTheorems.TerminalFirstEndsAll | AuthenticationFilter.cpp:24-27 | a handler whose first callback is terminal, like that of a rejected request, is deleted just then, has sent nothing, and has no step left |
| StreamTheorems.DrainedIsDeleted | FileServerRequestHandler.cpp:121-136 | once terminated and drained the handler is deleted if and only if it was not listing |
| StreamTheorems.ListingIsNeverDeleted | FileServerRequestHandler.cpp:50-57 | a handler that lists a directory is never deleted |
| StreamTheorems.ListingIsLeftBehind | FileServerRequestHandler.cpp:159-192 | for every page a run that serves it, ends, and leaves the handler undeleted |
| StreamTheorems.NoLostWakeup | FileServerRequestHandler.cpp:121-155 | an open file without a pause implies a scheduled reader; the flag is set exactly while a job or its notification is pending |
| StreamTheorems.FileHasOneOwner | FileServerRequestHandler.cpp:147-151 | one job at most, never reading a closed file; the event base looks at the file pointer only when there is none |
| StreamTheorems.EventBaseLeavesJobs | FileServerRequestHandler.cpp:74-85 | while a job exists no event-base step touches the file, its offset or the jobs |
| StreamTheorems.InternalDecreases | FileServerRequestHandler.cpp:88-127 | every internal step decreases a measure of unread bytes, job phase, reschedule and queue |
| StreamTheorems.InternalRunIsBounded | FileServerRequestHandler.cpp:88-127 | so between two callbacks only that many internal steps are possible |
| StreamTheorems.PauseStopsReading | FileServerRequestHandler.cpp:137-142 | after a pause at most one more read takes effect |
| StreamCallbacks.PausedIff | FileServerRequestHandler.cpp:137-145 | over every run of a connection that has not ended: the handler is paused if and only if, of the pauses and resumptions so far, the last is a pause |
| StreamCallbacks.PauseHolds | FileServerRequestHandler.cpp:137-142 | from a pause on at most one more read takes effect, and none if the reader was not reading |
| StreamCallbacks.ResumeDelivers | FileServerRequestHandler.cpp:143-155 | whatever the reader is doing when the connection resumes, every way of finishing the internal steps reaches exactly one of the two endings |
| StreamCallbacks.RequestDecides | FileServerRequestHandler.cpp:22-64 | over every run the request in it decides what is sent: a 400, a 404, a 200 with this page or a 200 with this file, and nothing else later |
| StreamCallbacks.ListingDelivers | FileServerRequestHandler.cpp:159-190 | a drained listing has sent head, page and end, once |
| StreamTheorems.StuckIsDrained | FileServerRequestHandler.cpp:86-128 | the server has no step to take exactly when no job and no closure is left |
| StreamTheorems.CanDrain | FileServerRequestHandler.cpp:86-128 | from every state the server can finish its work without a failing read |
| StreamTheorems.NoAbortWithoutFailure | FileServerRequestHandler.cpp:92-100 | no abort is ever sent, queued or in hand unless a read failed |
| StreamTheorems.WholeFileWithoutFailure | FileServerRequestHandler.cpp:86-128 | without failing reads a drained unpaused transfer delivered the whole file, over any pauses and reschedules |
| StreamTheorems.EveryFileCanBeServed | FileServerRequestHandler.cpp:22-136 | for every file there is a run that delivers it all and ends with the handler deleted |
| Grammar.ParseIsSound | Validations.cpp:11-28 | what a greedy parser consumes is in the language its expression denotes |
| Grammar.TurnsConsume | Validations.cpp:14-15 | a parser that cannot match nothing consumes at least a character, so nested repetitions end |
| Validations.GrammarsAreProductive | Validations.cpp:14-26 | every repeated part of both grammars consumes something, so no repetition turns forever |
| Validations.ValidPathMeans | Validations.cpp:11-20 | the greedy path check, the regular language and "a slash, or a slash, a letter from A to Z or a to z, and then any characters from ! to ~" accept the same strings |
| Validations.ValidEmailMeans | Validations.cpp:21-28 | the greedy e-mail check accepts exactly alphanumerics, `@`, one or more labels each ended by a dot, and a last label: sound and complete although it never backtracks |
| Validations.LabelsParse | Validations.cpp:25-26 | the repeated labels stop before the last word, whose attempt fails at the missing dot and is put back |
| Validations.EraseLastSlash | Validations.cpp:32 | removes the last slash wherever it is, and nothing else |
| Validations.SanitizePath | Validations.cpp:29-34 | takes away one trailing slash, if there is one |
| Validations.SanitizedMeans | Validations.cpp:29-34 | what is left is the path or the path but for one slash at its end |
| Validations.SanitizeTwice | Validations.cpp:29-34 | doing it again changes nothing if and only if the path did not end in two slashes |
| Keys.ToIntToString | DbManager.cpp:133 | decimal printing can be read back |
| Keys.AtoiToString | DbManager.cpp:345-346 | `atoi` reads back what `to_string` wrote |
| Keys.ToStringIsCanonical | DbManager.cpp:133 | no number but 0 starts with a 0 |
| Keys.ObjectKeyIsInjective | DbManager.cpp:124 | an object key determines its path and its id |
| Keys.LessMeans | DbManager.cpp:269-275 | keys are ordered byte by byte: a proper prefix first, otherwise by the first difference |
| Keys.NewIterator | DbManager.cpp:269-275 | the iterator meets every key once, in bytewise order |
| Keys.SortedIsUnique | DbManager.cpp:269-275 | that order is determined by the keys |
| Database.DbManager.GetEndpoints | DbManager.cpp:267-278 | the keys of the default family, each once, in bytewise order |
| Database.DbManager.ScanForEndpoint | DbManager.cpp:267-278 | the linear scan finds exactly the same |
| Database.DbManager.ReadFamily | DbManager.cpp:286-295 | an iterator loop collects every document once, in key order |
| Database.DbManager.GetAll | DbManager.cpp:321-336 | the listing of a family, or an error without a handle |
| Database.DbManager.Get | DbManager.cpp:279-307 | a listing for an endpoint, otherwise the index entry |
| Database.DbManager.Post | DbManager.cpp:107-150 | object, index entry and counter change together, with the counter's text as id; otherwise nothing changes |
| Database.DbManager.Put | DbManager.cpp:152-177 | transaction, index-only write or nothing, by the two lookups of the source |
| Database.DbManager.AddEndpoint | DbManager.cpp:224-265 | a new family, descriptor, counter 0 and handle; the global count stays |
| Database.DbManager.DeleteKeys | DbManager.cpp:506-517 | the object keys are deleted from the default family |
| Database.DbManager.DeleteEndpoint | DbManager.cpp:492-551 | counter, descriptor, handle and family go; a path that is no endpoint is an error |
| Database.DbManager.RawSave | DbManager.cpp:438-452 | the document goes to its family and to the index |
| Database.DbManager.ExpiredTokens | DbManager.cpp:467-475 | collects exactly the tokens that have run out, by their dates alone, unless a date cannot be read |
| Database.DbManager.DeleteFrom | DbManager.cpp:481-487 | deletes exactly the collected keys from the family |
| Database.DbManager.CleanTokens | DbManager.cpp:462-488 | deletes exactly those from the token family and nothing from the index; an unreadable date ends it before anything is deleted |
| StoreProofs.PostIsCommit | DbManager.cpp:107-150 | on a well-formed store `post` of an object never fails and stores it under the next id |
| StoreProofs.IndexOnlyBranch | DbManager.cpp:152-176 | the index-only write of `put` is reached exactly by a path with a trailing slash that is no endpoint while its short form is one |
| StoreProofs.AddKeepsWellFormed | DbManager.cpp:224-265 | adding a fresh endpoint keeps the store well formed |
| StoreProofs.DeleteEffect | DbManager.cpp:492-551 | the misdirected object deletes hit no counter: deleting changes just one counter, one descriptor, one family |
| StoreProofs.DeleteKeepsWellFormed | DbManager.cpp:492-551 | deleting keeps the store well formed |
| StoreProofs.OpKeepsWellFormed | DbManager.cpp:107-551 | so does every operation |
| StoreProofs.RunKeepsWellFormed | DbManager.cpp:107-551 | and every run: dense ids, catalogue, index inclusion |
| StoreProofs.OpenedIsWellFormed | DbManager.cpp:350-391 | the store that a first start leaves, reopened, is well formed |
| StoreTheorems.FamilyIsLog | DbManager.cpp:119-134 | an endpoint's family holds its log of documents, the i-th under `path/i`, and nothing else |
| StoreTheorems.PostRefines | DbManager.cpp:107-150 | `post` appends the document, with the id beside its fields, to the endpoint's log |
| StoreTheorems.PutRefines | DbManager.cpp:152-177 | `put` appends the document to the log, or changes no log |
| StoreTheorems.AddRefines | DbManager.cpp:224-265 | adding makes an empty log |
| StoreTheorems.DeleteRefines | DbManager.cpp:492-551 | deleting forgets one log and no other |
| StoreTheorems.ObjectAtKey | DbManager.cpp:124 | a key is that of one document of one log only |
| StoreTheorems.GetFindsObject | DbManager.cpp:300-303 | `get` of a document's key finds that document of the log, on every well-formed store |
| StoreTheorems.GetFindsLiveObjects | DbManager.cpp:300-306 | `get` of a path that is no endpoint answers what the logs hold if and only if the index has no orphan there |
| StoreTheorems.ReadsRefine | DbManager.cpp:279-336 | `get` and `get_all` answer what the logs hold: an endpoint's listing and a document always, anything else where the index is exact |
| StoreTheorems.OpRefines | DbManager.cpp:107-551 | every operation does to the logs, and answers, what its meaning says |
| StoreTheorems.RunRefines | DbManager.cpp:107-551 | over every run the families implement the logs: each endpoint holds what was stored since it was last added |
| StoreTheorems.RunAnswersRefine | DbManager.cpp:107-551 | and every answer along the run is the one that the logs give |
| StoreAnswers.PostKeepsFields | DbManager.cpp:119-134 | the answer and the stored document have every field that was posted, with its value, and the id under `ID` |
| StoreAnswers.PutKeepsDocument | DbManager.cpp:160-165 | a document that is put is found under its id as it was sent |
| StoreAnswers.IndexOnlyIsRead | DbManager.cpp:174 | what the index-only branch writes is read back under its path, and no other answer changes |
| StoreAnswers.AddedDescriptor | DbManager.cpp:242-257 | the descriptor field by field, with the global count, which stays, as its id; other descriptors stay |
| StoreAnswers.DescriptorIdsRepeat | DbManager.cpp:242-249 | two endpoints added one after the other get one id |
| StoreAnswers.AddWithoutCount | DbManager.cpp:238-242 | without a global count the id is 0 |
| StoreAnswers.MissingHandles | DbManager.cpp:107-507 | without a handle each operation fails and changes nothing |
| StoreAnswers.BadInputs | DbManager.cpp:123-131 | no object, no number and no date each end the operation before it changes anything |
| StoreAgreement.ListingIsLogInKeyOrder | DbManager.cpp:286-297 | a listing has every document of the log exactly once, in the bytewise order of the keys |
| StoreAgreement.CatalogueAgrees | DbManager.cpp:224-265 | counter, descriptor with its url, and handle: an endpoint has all three or none |
| StoreAgreement.NoHandleIsMissing | DbManager.cpp:286 | no handle lookup of an endpoint throws |
| StoreAgreement.DeleteKeepsCatalogueIff | DbManager.cpp:510-522 | deleting keeps the catalogue if and only if no object key of the endpoint is itself a counted path |
| StoreAgreement.NestedEndpointLosesItsCounter | DbManager.cpp:510-522 | the case in which it does not |
| StoreAgreement.NestedEndpointExists | DbManager.cpp:224-265 | that case can be set up in a freshly opened store |
| StoreAgreement.FamiliesAreDisjoint | DbManager.cpp:124-129 | no two endpoints share an object key |
| StoreAgreement.IndexStaysExactIff | DbManager.cpp:128-174 | an index that is the disjoint union of the families stays so if and only if the operation leaves no orphan: deleting an endpoint with objects, cleaning up a token, or the index-only `put` |
| StoreAgreement.RunKeepsIndexExact | DbManager.cpp:128-174 | hence over every run without those |
| StoreAgreement.DeletedObjectsStayReachable | DbManager.cpp:506-517 | a deleted endpoint's objects are still found by `get` |
| StoreAgreement.OrphanIsFound | DbManager.cpp:506-517 | one document, its endpoint deleted: `get` still finds it and no log holds it |
| StoreAgreement.PutStoresIff | DbManager.cpp:154-176 | `put` to an endpoint stores if and only if the path without a trailing slash is an endpoint, and otherwise changes nothing |
| StoreAgreement.PutIsDropped | DbManager.cpp:154-176 | on an opened store with the endpoint `/a/` added, every `put` to it is dropped |
| StoreAgreement.DocumentsPersist | DbManager.cpp:107-172 | unless its endpoint is deleted, no document is ever overwritten: logs only grow |
| TransactionProofs.BufferIsPut | DbManager.cpp:158-167 | a full transaction buffer, applied, is a whole `put` |
| TransactionProofs.BatchIsPostIff | DbManager.cpp:119-134 | the batch of a `post` is a whole `post` if and only if the counter is still the one read |
| TransactionProofs.StepKeepsLocks | DbManager.cpp:119-172 | every step, stale or not, keeps locks, buffers and the ids of their holders in agreement |
| TransactionProofs.StepKeepsInv | DbManager.cpp:158-172 | every step but the write of a stale `post` keeps the store equal to what its serial log leaves |
| TransactionTheorems.RunsAreSerializable | DbManager.cpp:107-172 | every interleaving without a stale `post` leaves the store as the committed writers do one after the other |
| Submissions.WritesAreSubmitted | DbManager.cpp:119-172 | over every run, stale or not: each transaction has the path and document of its own beginning, and each event did what a client had asked for, a `post` being read and then written |
| TransactionTheorems.PutsAreSerializable | DbManager.cpp:157-172 | every interleaving of `put` transactions leaves what the documents submitted leave, put one after the other, with any failures and rollbacks |
| Serializability.StepLosesIff | DbManager.cpp:107-172 | a step of any writer loses an update exactly when it is the write of a stale `post`, and none is ever found again |
| Serializability.NoLostUpdateIff | DbManager.cpp:119-134 | over every run: each counter has moved by one for each writer that took effect if and only if no `post` was stale |
| Serializability.SerializableIff | DbManager.cpp:107-172 | over every run: some serial order of the documents submitted by the writers that took effect, or of merely as many writers, ends in the same store if and only if no `post` was stale |
| Serializability.StoreHoldsSubmitted | DbManager.cpp:107-172 | over every run without a stale `post`: each endpoint ends with what it had, followed by the documents submitted to it in commit order |
| Serializability.CommitOrderIsSerialIff | DbManager.cpp:107-172 | over every run: the commit order with the ids used is serial if and only if no `post` was stale |
| TransactionTheorems.CommittedIsLogged | DbManager.cpp:166-172 | over every run, stale or not: each committed transaction takes effect exactly once, with the id it read; a rolled-back one never does |
| TransactionTheorems.RunIdsAreDense | DbManager.cpp:337-348 | over every run without a stale `post`: ids are consecutive in commit order and the counter moves by one for each committed writer |
| TransactionTheorems.IdsAreDistinct | DbManager.cpp:337-348 | no two writers of an endpoint use one id |
| TransactionTheorems.NoDeadlock | DbManager.cpp:339-344 | over every run, stale or not: who holds a counter can always go on, and who waits, waits for such a one |
| TransactionProgress.AllCanCommit | DbManager.cpp:157-172 | every run, stale or not, can be continued until all transactions at work have committed, none failing, while the counters have room |
| TransactionTheorems.ObjectLocksAreFree | DbManager.cpp:163-165 | nobody else holds a lock on the object or index key a transaction writes |
| TransactionTheorems.PostsCanCollide | DbManager.cpp:119-134 | two `post`s that read before either writes share an id, and the second document replaces the first |
| Users.UserManager.GetAccessToken | UserManager.cpp:41-60 | a token for the user, good for five minutes, stored under its name |
| Users.UserManager.ValidateAccessToken | UserManager.cpp:66-88 | accepts exactly a stored token that has not run out, for the name it was issued to up to the first NUL; of the exceptions on the way it catches only `domain_error` |
| Users.FaultIffUnread | UserManager.cpp:102-116 | a record is read exactly when no field is missing, of another type, or no date |
| Users.BadRecords | UserManager.cpp:69-87 | which bad records are denied and which let an exception escape |
| Users.NoRecord | UserManager.cpp:69-87 | without a record the token is denied, without its family the lookup throws |
| Users.NothingEscapes | UserManager.cpp:72-83 | no exception escapes on a well-formed store |
| Users.UserManager.CreateUser | UserManager.cpp:89-101 | stores the user with the digest of the password |
| Users.CreatedUserAuthenticates | UserManager.cpp:28-40 | a created user authenticates with that password's digest and no other |
| Users.CreatedUserIsStored | UserManager.cpp:89-101 | the record of a created user field by field; other users stay |
| Users.UserManager.Authenticate | UserManager.cpp:28-40 | true exactly for a stored user with that digest |
| Users.AuthenticatesIff | UserManager.cpp:28-40 | after any run a name and a digest authenticate if and only if the record last saved under that name carries that digest, and never under a name that was never saved |
| Users.OpsTouchTarget | DbManager.cpp:107-551 | the user and token families change by their own operations only |
| Store.TokenRoundTrip | UserManager.cpp:102-121 | a token comes back with its names cut at their first NUL, so as it was if and only if there is none |
| Users.RunKeepsRecord | UserManager.cpp:41-49 | after any run the record read back under a token is the latest that no clean-up removed |
| Users.TokenIsValidIff | UserManager.cpp:66-88 | after any run a token is accepted if and only if that record is for this user and has not run out |
| Users.TokenIsAcceptedIff | UserManager.cpp:50-88 | with clean-ups in the past only: if and only if the name, cut, of the user it was last issued to is this one, at most five minutes ago |
| Users.IssuedIsStored | UserManager.cpp:41-60 | the record of an issued token field by field, good for 300 seconds |
| Users.FreshTokenIsAcceptedIff | UserManager.cpp:112 | a fresh token is good for one name only, and for its owner if and only if there is no NUL in the owner's name |
| Users.CutNameIsAccepted | UserManager.cpp:112 | a token issued to `bob`, NUL, `x` is good for `bob` and not for its owner |
| Users.CleaningChangesAnswersIff | DbManager.cpp:472-483 | what a clean-up changes: exactly the tokens that ran out by its time |
| Users.CleaningChangesNothingLater | DbManager.cpp:472-483 | no answer at any strictly later time |
| Users.LastSecondIsCleaned | DbManager.cpp:473-474 | a token in its last second that is good before a clean-up and not after |
| Routing.RouteRequest | RestDbRequestHandlerFactory.cpp:21-42 | the document handler for a valid path, else the next handler, else a refusal |
| Routing.AdmittedIff | RestDbRequestHandlerFactory.cpp:24-29 | the gate in plain characters: two slashes, or a slash, a letter, and then characters from ! to ~ |
| Routing.ObjectIsAdmitted | RestDbRequestHandlerFactory.cpp:24-29 | the documents of an admitted endpoint can be asked for one by one |
| Routing.AdmittedIsUnreserved | RestDbRequestHandlerFactory.cpp:24-29 | an admitted path never starts with `/__` |
| Routing.RestDbRequestHandler.OnRequest | RestDbRequestHandler.cpp:26-38 | keeps the method and the normalised path |
| Routing.RestDbRequestHandler.OnEOM | RestDbRequestHandler.cpp:55-164 | one store operation by method, and the reply with the document that goes back |
| Routing.AdmittedIsAnswered | RestDbRequestHandler.cpp:55-136 | on a well-formed store no exception escapes, and a `put` or a denied `post` gets its own document back |
| Routing.EffectMeans | RestDbRequestHandler.cpp:92-147 | an admitted POST or PUT does to the logs what it means, every other method leaves the store as it was |
| Routing.EndpointIsSent | RestDbRequestHandler.cpp:65-71 | a GET of an endpoint is sent all its documents, each once, in the order of their keys |
| Routing.DocumentIsSent | RestDbRequestHandler.cpp:73-85 | a GET of a document's key is sent that document |
| Routing.NothingIsSent | RestDbRequestHandler.cpp:77-89 | a GET of any other path is a 404 where the index is exact |
| Routing.OthersAreAnswered | RestDbRequestHandler.cpp:92-161 | the reply to every other method, with its status and its document |
| Routing.MissingHandleReplies | RestDbRequestHandler.cpp:66-115 | what is answered, and what escapes, on a store without a handle |
| Routing.RootReplies | RestDbRequestHandler.cpp:61-141 | what the handler would answer for the root |
| Routing.RootIsNeverAdmitted | RestDbRequestHandlerFactory.cpp:24-26 | no admitted path is normalised to nothing |
| Routing.RootIsRefused | RestDbRequestHandlerFactory.cpp:24-26 | `/` is not admitted and `//` is |
| Routing.RequestLeavesSystem | RestDbRequestHandler.cpp:98-127 | an admitted request changes no user, token, descriptor, endpoint name or reserved index entry |
| Routing.RequestsLeaveSystem | RestDbRequestHandler.cpp:98-127 | nor does any sequence of them |
| Routing.RequestsChangeNoCredentials | UserManager.cpp:66-88 | hence none changes the answer about a token or a password |
| Authentication.RejectsIff | AuthenticationFilter.cpp:14-34 | on a well-formed store no request ends the server, and a request is rejected exactly when both headers are there and the pair is not valid |
| Authentication.AuthenticationFilter.OnRequest | AuthenticationFilter.cpp:12-41 | a denied pair of headers is rejected; otherwise the request goes through; an exception that escapes ends the server |
| Authentication.AuthenticationFilter.Forward | AuthenticationFilter.cpp:66-90 | passes a callback on unless the request was rejected |
| Authentication.AuthenticationFilter.Finish | AuthenticationFilter.cpp:52-65 | passes the terminal callback on unless rejected, and deletes the filter |
| Authentication.AuthenticationFilter.Serve | AuthenticationFilter.cpp:12-90 | over a whole connection the inner handler sees every callback, or exactly one error and the client a 401; either way one terminal callback and one deletion |

## Left out

- RocksDB, folly and proxygen internals: finite maps, key locks, atomic commits, a first-in-first-out event base and the read contract are assumed.
- First start, opening and closing of the database (DbManager.cpp:27-83, 350-426): the model starts from an opened store, of which `OPENED` is one.
- `remove` (DbManager.cpp:178-200): its loop changes nothing.
- JSON text, MD5, base64, random bytes and the printed form of dates: documents, digests, tokens and times are values.
- Network clients, configuration, logging, CORS, the HTML of pages and the texts of error replies.
- Endpoint, user and login request handlers: they call the operations modelled here after parsing a body.
- The listing of the default family by `get_all("default")`: the default family holds counters and is kept apart.
- Counters at the largest `int`: stepping them is undefined in the source and excluded by `CanCount`.
- Leading blanks and signs in `atoi` and `stoi`: the store writes neither into a counter.
- Adding an endpoint that exists already: column family creation fails and the source stores an undefined handle, so `IsFresh` excludes it.
- Endpoints added or deleted while writers are at work: the interleaved model has a fixed set of endpoints.
- Failing RocksDB calls outside transactions: the sequential operations are modelled with calls that succeed; failures of each step are in the interleaved model.
- A body that does not parse: `parseBody` is not part of this model.
- Futures and scheduling inside the document handler: the work after the end of a message is one step.
- Uniqueness of descriptor ids: the global count is never stepped, so it does not hold.
- `directory_iterator` exceptions and the content of a listing: the page is a value found at the start.
- `onBody`, `onUpgrade` and `onEOM` of the file handler: their bodies are empty.
- That `requestComplete` follows the end of the message: the model lets it come at any time, which allows more runs and proves the same of them.
- Database.DbManager.AddEndpoint: requires a fresh path, because otherwise the handle it stores is undefined.
- StreamTheorems.DrainDeletes: not for directory listings, whose handlers are never deleted.
- StoreTheorems.ReadsRefine: no meaning is given to `get` of a reserved path, nor to `get` of a path that only a stale index may hold; `GetFindsLiveObjects` is the exact condition.
- StoreAgreement.RunKeepsIndexExact: only for runs in which no operation leaves an orphan, since `IndexStaysExactIff` shows that any such operation ends it.
- TransactionTheorems.RunsAreSerializable: only for runs in which no `post` writes over a counter that has moved; `SerializableIff` shows that no other run is serializable.
- Users.TokenIsAcceptedIff: for times after the last clean-up; `TokenIsValidIff` is the statement for every time.
- Routing.RestDbRequestHandler.OnEOM: the method OTHER stands for HEAD, CONNECT, TRACE and PATCH, which are answered alike.
