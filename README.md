# Blog app: connection cache, post schema and the `/api/posts` handler

This project models the three pieces of the blog application's server side that carry logic
of their own, and proves what they promise.

- **Connection cache** (`lib/mongodb.ts`). The process keeps one record `{conn, promise}`.
  It is Empty (neither set), Connecting (an attempt recorded) or Connected (a connection
  cached). `connectDB` returns the cached connection, or joins the recorded attempt, or
  begins the only new attempt. On success it caches the connection. On failure it clears
  the recorded attempt, so the next call begins a fresh one.
  - The record is the class `ConnectionCache.Cached`. Its methods `Enter`, `Resume` and
    `ConnectDB` update the fields in place, as the source does.
  - Each of these methods is tied to a pure step function (`BeginStep`, `FinishStep`, `ConnectStep`).
  - `ResumeGuarded`, tied to `FinishAwaited`, is the corrected resume from "## Findings".
  - Concurrent callers are modelled as traces of `Call`, `Settle` and per-caller `Resume`
    events. Over these traces the source as written is not single flight (see "## Findings").
    With the resume guarded to clear only the attempt the caller awaited, the lemmas over `Run`
    prove single flight, retry after failure, and that Connected is absorbing.
- **Post schema** (`models/Post.ts`). `Violations` lists the validators a document fails:
  `required` on title, content and author, and `maxlength` 60 on the title, each with its
  message. `WithDefaults` fills the timestamps from a clock passed in. `Create` models
  `Post.create` as defaults, then validation, then the insertion, whose outcome is a parameter.
- **Collection handler** (`pages/api/posts/index.ts`). `Handle` maps the request, the
  outcome of `connectDB`, the stored posts, the repository outcome and two clock readings to
  one response, the posts stored afterwards and whether `Post.create` was called.
  `ServeCollection` runs `connectDB` on the shared cache and then the handler.

The connection, the database and the clock are parameters. An attempt's outcome is a
function from attempts to `Resolved(conn)` / `Rejected(error)`. The repository outcome is
`Found` / `FindFailed(e)` for the listing and `Stored(id)` / `WriteFailed(e)` for the insertion.
A thrown value is either an `Error` with a message or something else; error bodies report
the message or "Unknown error".

Two facts about the source that the model keeps:
- The handler calls `new Date()` twice (`pages/api/posts/index.ts:52-53`), so a created post's
  `createdAt` and `updatedAt` are two separate clock readings. The model does not claim that
  they are equal, or ordered.
- A failed insertion on the POST path yields 400, not 500 (`pages/api/posts/index.ts:57-63`).

## Model

| member | source | states |
|---|---|---|
| `ConnectionCache.ResolveUri` | lib/mongodb.ts:3 | the URI is the environment value when that is a non-empty string, otherwise the local default; it is never empty |
| `ConnectionCache.LoadUri` | lib/mongodb.ts:3-7 | module load always succeeds with the resolved URI: the guard that throws on a missing URI cannot fire |
| `ConnectionCache.BeginStep` | lib/mongodb.ts:25-45 | Connected: returns the cached connection and changes nothing; Connecting: joins the recorded attempt and changes nothing; Empty: records a new attempt and moves to Connecting; an attempt is begun exactly when the cache is Empty |
| `ConnectionCache.FinishStep` | lib/mongodb.ts:47-55 | as written: a resolved attempt caches its connection and returns it (Connected); a rejected one clears whatever attempt is recorded, leaves `conn` as it was and rethrows, so an unconnected cache is Empty again |
| `ConnectionCache.FinishAwaited` | lib/mongodb.ts:47-55 | the guarded resume: it agrees with `FinishStep` whenever the awaited attempt is still recorded; a rejection of an attempt that is no longer recorded leaves the cache unchanged; a resolution caches the connection |
| `ConnectionCache.ConnectStep` | lib/mongodb.ts:24-56 | one uninterrupted `connectDB`: cached connection returned as is; otherwise success caches and returns the connection and failure leaves the cache Empty and rethrows; the attempt count rises by one exactly when the cache was Empty |
| `ConnectionCache.Cached.constructor` | lib/mongodb.ts:18 | a new record has neither connection nor attempt |
| `ConnectionCache.Cached.Enter` | lib/mongodb.ts:25-45 | updates the fields exactly as `BeginStep` says and returns what the caller awaits |
| `ConnectionCache.Cached.Resume` | lib/mongodb.ts:47-55 | updates the fields exactly as `FinishStep` says (a rejection clears whatever attempt is recorded) and returns the connection or the error |
| `ConnectionCache.Cached.ResumeGuarded` | lib/mongodb.ts:47-55 | the corrected resume: updates the fields exactly as `FinishAwaited` says for the attempt the caller awaited, and returns the connection or the error |
| `ConnectionCache.Cached.ConnectDB` | lib/mongodb.ts:24-56 | updates the fields as `ConnectStep` says; with a cached connection it returns it and changes nothing |
| `ConnectionCache.LoadCache` | lib/mongodb.ts:18-22 | the existing global record is reused (same object); otherwise a fresh empty record is created and installed as the global |
| `ConnectionCache.AttemptAccounting` | lib/mongodb.ts:30-53 | over any interleaving, with either resume, attempts begun = times the recorded attempt was removed + change in the number of recorded attempts (0 or 1) |
| `ConnectionCache.SingleFlight` | lib/mongodb.ts:30-53 | with the guarded resume, from the empty cache and however calls, settlements and resumptions interleave: every attempt in flight is the recorded one, so at most one is in flight, and an attempt is begun only after every earlier one failed |
| `ConnectionCache.LateJoinerClearsNewerAttempt` | lib/mongodb.ts:30-50 | as written, a caller that awaits an attempt after it was rejected clears the next attempt when it resumes: on that trace two attempts are in flight at once; the guarded resume keeps one |
| `ConnectionCache.JoinWhileConnecting` | lib/mongodb.ts:30-48 | callers arriving while an attempt is in flight leave the record unchanged, and each of them awaits the recorded attempt |
| `ConnectionCache.ColdStartBeginsOneAttempt` | lib/mongodb.ts:30-48 | any number of callers on a cold cache begin exactly one attempt, attempt 0, and all await it |
| `ConnectionCache.ConsistentPreserved` | lib/mongodb.ts:24-56 | with the guarded resume, every interleaving keeps the recorded attempt the latest one begun, every other attempt begun settled and failed, every suspended caller awaiting an attempt begun, and a cached connection equal to what the recorded attempt resolved to |
| `ConnectionCache.ConnectedIsAbsorbing` | lib/mongodb.ts:24-56 | with either resume, once a connection is cached, no sequence of events clears it or begins another attempt |
| `ConnectionCache.ConnectedIsStable` | lib/mongodb.ts:25-28 | with the guarded resume, in a reachable Connected state no event changes the record at all, and every later caller receives the same connection |
| `ConnectionCache.RetryAfterFailure` | lib/mongodb.ts:49-53 | after the recorded attempt fails and a caller awaiting it resumes, the cache is Empty and the next caller begins a fresh, different attempt instead of receiving the old failure |
| `PostModel.Violations` | models/Post.ts:3-16 | no violation exactly when title, content and author are non-empty strings and the title has at most 60 characters; a missing title, an overlong title, missing content and a missing author each produce their own message; no other violation appears; at most one violation per path, in schema order (title, content, author) |
| `PostModel.WithDefaults` | models/Post.ts:17-24 | each timestamp left unset becomes `now`, each one given is kept, and the text fields are untouched |
| `PostModel.Create` | models/Post.ts:3-27 | creation succeeds exactly when the document is acceptable and the insertion succeeds; an unacceptable document fails with the validation error built from its violations; the created post is well-formed and carries the given fields, the assigned id and the given or defaulted timestamps |
| `PostModel.OverlongTitleRejected` | models/Post.ts:7 | a document whose only fault is a title over 60 characters fails with the maxlength violation alone |
| `PostModel.OverlongTitleMessage` | models/Post.ts:7 | that failure's message is "Post validation failed: title: Title cannot be more than 60 characters" |
| `PostModel.TitleLengthBoundary` | models/Post.ts:7 | a title of exactly 60 characters passes; one of 61 fails with the maxlength message only |
| `PostsCollection.NewestFirst` | pages/api/posts/index.ts:25 | the listing is the stored posts (the same multiset), ordered by `createdAt`, newest first |
| `PostsCollection.PresenceChecksAgree` | pages/api/posts/index.ts:38-46 | the handler's truthiness check and the schema's `required` validators accept the same fields; only the title length is left to the schema |
| `PostsCollection.Handle` | pages/api/posts/index.ts:15-77 | every request gets one of 200, 201, 400, 405, 500; 500 exactly on a connection failure or a failed GET; 405 exactly for a method other than GET and POST after connecting; 200 exactly for a successful GET, with the stored posts newest first; 201 exactly for a POST with all fields present, a title of at most 60 characters and a successful insertion; 400 for every other POST; `Post.create` is called exactly for a POST with all three fields present; only a 201 changes the stored posts, appending the created post, which is well-formed and carries the body's fields and the two clock readings |
| `PostsCollection.StoreStaysWellFormed` | pages/api/posts/index.ts:48-56 | a request never adds a post that breaks the schema: if every stored post has a non-empty title of at most 60 characters, non-empty content and a non-empty author, so does every post stored afterwards |
| `PostsCollection.ErrorBodies` | pages/api/posts/index.ts:19-77 | each error branch's fixed `error` text, and `details` is the thrown value's message for an `Error`, "Unknown error" otherwise; a missing field gives the fixed details text and a 405 has no details |
| `PostsCollection.OverlongTitleRejectedBySchema` | pages/api/posts/index.ts:48-63 | a POST with all fields present but a title over 60 characters calls `Post.create`, stores nothing and ends in 400 "Error creating post" with the schema's maxlength message |
| `PostsCollection.CreatedPostIsListed` | pages/api/posts/index.ts:23-56 | after a 201, a successful GET lists one more post than before, including the created one, newest first |
| `PostsCollection.ServeCollection` | pages/api/posts/index.ts:19-20 | a request runs `connectDB` on the shared cache, then the handler on its outcome |

## Left out

- The item endpoint `/api/posts/{id}` (`pages/api/posts/[id].ts`) is not part of this model.
  This covers GET, PUT and DELETE by id, the malformed-id check and 404.
- The pages (`pages/index.tsx`, `pages/posts/create.tsx`, `pages/posts/[id].tsx`) are presentation.
  Their `maxLength` is only a browser hint.
- Mongoose and MongoDB are not modelled: `mongoose.connect`, `Post.find()`, the insertion
  and persistence.
  - Connecting and inserting are outcome parameters.
  - `find().sort({createdAt: -1})` is a reference function that returns the stored posts newest first.
  - The database leaves the order of equal timestamps open, so the contract does too.
- The format of Mongoose's validation error message follows Mongoose's `ValidationError`. Mongoose's source is not part of this model.
  When several paths fail, the order of their entries in the message is assumed to be the schema's
  (title, content, author); Mongoose may order them differently. No handler path reaches such a
  document, because the handler rejects missing fields before calling `Post.create`.
- Real promises and the event loop are not modelled. Settling an attempt and resuming each
  caller that awaits it are separate events, and any caller whose attempt has settled may
  resume at any point. This allows more orders than the microtask queue does, so the
  guarantees proved over all traces hold for the real orders too. Timeouts and
  cancellation do not exist in the source.
- Clocks are parameters (`now`, `clock1`, `clock2`). Logging with `console.log`/`console.error` is left out.
- The `declare global` typing block is left out. `LoadCache` models only its effect.
- Request body values are optional strings. Non-string JSON values and their truthiness are out of scope.
  A missing `req.body` is out of scope too. The method is a string; an absent method takes the default branch (405), like any unknown one.
- String length is counted in characters, where JavaScript counts UTF-16 code units. The two differ only for characters outside the Basic Multilingual Plane.
- The database-assigned post id and the connection handle are opaque numbers.

## Findings

| source | as written | input that shows it | evidently intended | confidence | as-written member | corrected member |
|---|---|---|---|---|---|---|
| lib/mongodb.ts:50 | a caller whose awaited attempt rejected sets `cached.promise = null`, whatever attempt is recorded by then | caller A begins attempt 0, which rejects; caller B reaches line 30 before A resumes and awaits the rejected attempt; A clears it; caller C begins attempt 1; B clears attempt 1 while it is in flight; caller D begins attempt 2, so attempts 1 and 2 are in flight at once | clear the record only while it still holds the attempt this caller awaited (`if (cached.promise === awaited) cached.promise = null`) | medium: needs B to run in a microtask between the rejection and A's resumption; not executed | `ConnectionCache.LateJoinerClearsNewerAttempt` | `ConnectionCache.FinishAwaited`, run in place by `ConnectionCache.Cached.ResumeGuarded`, proved single flight by `ConnectionCache.SingleFlight` |
