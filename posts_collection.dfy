/** The collection endpoint `/api/posts` (pages/api/posts/index.ts): obtain the connection,
    dispatch on the HTTP method, check the required fields, call the repository and map
    every outcome to exactly one status code and body.

    Each request is a function of its inputs: the request itself, how `connectDB` ended,
    the posts stored before the request, how the repository call ends, and the two clock
    readings `new Date()` takes. */
module PostsCollection {
  import opened Wrappers
  import opened Js
  import opened PostModel
  import ConnectionCache

  const ConnectionFailed: string := "Database connection error"
  const FetchFailed: string := "Error fetching posts"
  const MissingFields: string := "Missing required fields"
  const MissingFieldsDetails: string := "Title, content, and author are required"
  const CreateFailed: string := "Error creating post"
  const MethodNotAllowed: string := "Method not allowed"

  /** The body fields the endpoint reads. */
  datatype Body = Body(title: Option<string>, content: Option<string>, author: Option<string>)

  datatype Request = Request(verb: string, body: Body)

  /** How `Post.find()` ends: with the stored posts, or by throwing. */
  datatype FindOutcome = Found | FindFailed(error: Thrown)

  /** A JSON response body: the list of posts, the created post, or `{error, details?}`. */
  datatype Payload =
    | PostList(posts: seq<Post>)
    | CreatedPost(post: Post)
    | Failure(error: string, details: Option<string>)

  datatype Response = Response(status: nat, payload: Payload)

  /** The response, the posts stored afterwards, and whether `Post.create` was called. */
  datatype Handled = Handled(response: Response, store: seq<Post>, createCalled: bool)

  // ---------------------------------------------------------------- sort({ createdAt: -1 })

  predicate NewestFirstOrder(s: seq<Post>)
  {
    forall i, j :: 0 <= i < j < |s| ==> s[i].createdAt >= s[j].createdAt
  }

  function InsertNewestFirst(p: Post, s: seq<Post>): (r: seq<Post>)
    requires NewestFirstOrder(s)
    ensures NewestFirstOrder(r)
    ensures multiset(r) == multiset(s) + multiset{p}
    ensures |r| == |s| + 1 && (r[0] == p || (s != [] && r[0] == s[0]))
  {
    if s == [] || p.createdAt >= s[0].createdAt then [p] + s
    else
      var rest := InsertNewestFirst(p, s[1..]);
      assert s == [s[0]] + s[1..];
      assert s[0].createdAt >= rest[0].createdAt;
      [s[0]] + rest
  }

  /** The posts of a `find()` sorted by `createdAt`, newest first. The database does not
      order posts with equal timestamps, so the contract does not either. */
  function NewestFirst(s: seq<Post>): (r: seq<Post>)
    ensures NewestFirstOrder(r)
    ensures multiset(r) == multiset(s)
  {
    if s == [] then []
    else
      assert s == [s[0]] + s[1..];
      InsertNewestFirst(s[0], NewestFirst(s[1..]))
  }

  // ---------------------------------------------------------------- the handler

  /** `!title || !content || !author` is false. */
  predicate FieldsPresent(b: Body)
  {
    Truthy(b.title) && Truthy(b.content) && Truthy(b.author)
  }

  /** The object passed to `Post.create`: the three fields and two clock readings. */
  function CreateFields(b: Body, createdAt: Time, updatedAt: Time): Draft
  {
    Draft(b.title, b.content, b.author, Some(createdAt), Some(updatedAt))
  }

  /** The handler's only check and the schema agree on presence; only the title's length is
      left to the schema. */
  lemma PresenceChecksAgree(b: Body, createdAt: Time, updatedAt: Time)
    ensures Acceptable(CreateFields(b, createdAt, updatedAt))
        <==> FieldsPresent(b) && |b.title.value| <= MaxTitleLength
  {
  }

  function Handle(req: Request, connected: Result<ConnectionCache.Connection, Thrown>,
                  store: seq<Post>, find: FindOutcome, write: WriteOutcome,
                  clock1: Time, clock2: Time): (h: Handled)
    ensures h.response.status in {200, 201, 400, 405, 500}
    ensures h.response.status == 500 <==> connected.Err? || (req.verb == "GET" && find.FindFailed?)
    ensures h.response.status == 405 <==> connected.Ok? && req.verb != "GET" && req.verb != "POST"
    ensures h.response.status == 200 <==> connected.Ok? && req.verb == "GET" && find.Found?
    ensures h.response.status == 201 <==>
      connected.Ok? && req.verb == "POST" && FieldsPresent(req.body)
      && |req.body.title.value| <= MaxTitleLength && write.Stored?
    ensures h.response.status == 400 <==>
      connected.Ok? && req.verb == "POST"
      && !(FieldsPresent(req.body) && |req.body.title.value| <= MaxTitleLength && write.Stored?)
    ensures h.createCalled <==> connected.Ok? && req.verb == "POST" && FieldsPresent(req.body)
    ensures h.response.payload.Failure? <==> h.response.status >= 400
    ensures h.response.status != 201 ==> h.store == store
    ensures h.response.status == 200 ==>
      h.response.payload.PostList?
      && NewestFirstOrder(h.response.payload.posts)
      && multiset(h.response.payload.posts) == multiset(store)
    ensures h.response.status == 201 ==>
      h.response.payload.CreatedPost?
      && h.store == store + [h.response.payload.post]
      && h.response.payload.post == Post(write.id, req.body.title.value, req.body.content.value,
                                         req.body.author.value, clock1, clock2)
      && WellFormed(h.response.payload.post)
  {
    if connected.Err? then
      Handled(Response(500, Failure(ConnectionFailed, Some(Details(connected.error)))), store, false)
    else if req.verb == "GET" then
      match find
      case Found => Handled(Response(200, PostList(NewestFirst(store))), store, false)
      case FindFailed(e) => Handled(Response(500, Failure(FetchFailed, Some(Details(e)))), store, false)
    else if req.verb == "POST" then
      if !FieldsPresent(req.body) then
        Handled(Response(400, Failure(MissingFields, Some(MissingFieldsDetails))), store, false)
      else
        match Create(CreateFields(req.body, clock1, clock2), clock1, write)
        case Ok(post) => Handled(Response(201, CreatedPost(post)), store + [post], true)
        case Err(e) => Handled(Response(400, Failure(CreateFailed, Some(Details(e)))), store, true)
    else
      Handled(Response(405, Failure(MethodNotAllowed, None)), store, false)
  }

  /** The schema's guarantee holds of the whole collection: no request stores a post that
      breaks it. */
  lemma StoreStaysWellFormed(req: Request, connected: Result<ConnectionCache.Connection, Thrown>,
                             store: seq<Post>, find: FindOutcome, write: WriteOutcome,
                             clock1: Time, clock2: Time)
    requires forall p <- store :: WellFormed(p)
    ensures forall p <- Handle(req, connected, store, find, write, clock1, clock2).store :: WellFormed(p)
  {
  }

  /** The body of every error response: a fixed `error` per branch, and as `details` the
      thrown value's message when it is an `Error`, otherwise "Unknown error". */
  lemma ErrorBodies(req: Request, connected: Result<ConnectionCache.Connection, Thrown>,
                    store: seq<Post>, find: FindOutcome, write: WriteOutcome,
                    clock1: Time, clock2: Time)
    ensures var p := Handle(req, connected, store, find, write, clock1, clock2).response.payload;
      && (connected.Err? ==> p == Failure(ConnectionFailed, Some(Details(connected.error))))
      && (connected.Ok? && req.verb == "GET" && find.FindFailed? ==>
            p == Failure(FetchFailed, Some(Details(find.error))))
      && (connected.Ok? && req.verb == "POST" && !FieldsPresent(req.body) ==>
            p == Failure(MissingFields, Some(MissingFieldsDetails)))
      && (connected.Ok? && req.verb == "POST" && FieldsPresent(req.body) ==>
            var created := Create(CreateFields(req.body, clock1, clock2), clock1, write);
            created.Err? ==> p == Failure(CreateFailed, Some(Details(created.error))))
      && (connected.Ok? && req.verb != "GET" && req.verb != "POST" ==>
            p == Failure(MethodNotAllowed, None))
  {
  }

  /** Validation in two layers: a POST whose fields are all present but whose title is too
      long passes the handler's check, is rejected by the schema, and ends in 400 through the
      catch branch with the schema's message, storing nothing. */
  lemma OverlongTitleRejectedBySchema(req: Request, conn: ConnectionCache.Connection,
                                      store: seq<Post>, find: FindOutcome, write: WriteOutcome,
                                      clock1: Time, clock2: Time)
    requires req.verb == "POST" && FieldsPresent(req.body)
    requires |req.body.title.value| > MaxTitleLength
    ensures var h := Handle(req, Ok(conn), store, find, write, clock1, clock2);
      h.createCalled && h.store == store
      && h.response == Response(400, Failure(CreateFailed,
           Some("Post validation failed: title: " + TitleTooLong)))
  {
    OverlongTitleRejected(CreateFields(req.body, clock1, clock2), clock1, write);
    OverlongTitleMessage();
  }

  /** A post created by a POST is listed by the next successful GET, alongside every post
      stored before it, newest first. */
  lemma CreatedPostIsListed(post: Request, get: Request, conn: ConnectionCache.Connection,
                            store: seq<Post>, find: FindOutcome, write: WriteOutcome,
                            clock1: Time, clock2: Time)
    requires Handle(post, Ok(conn), store, find, write, clock1, clock2).response.status == 201
    requires get.verb == "GET"
    ensures var created := Handle(post, Ok(conn), store, find, write, clock1, clock2);
      var listed := Handle(get, Ok(conn), created.store, Found, write, clock1, clock2).response;
      listed.status == 200
      && |listed.payload.posts| == |store| + 1
      && created.response.payload.post in listed.payload.posts
      && NewestFirstOrder(listed.payload.posts)
  {
    var created := Handle(post, Ok(conn), store, find, write, clock1, clock2);
    var posts := NewestFirst(created.store);
    assert created.response.payload.post in multiset(posts);
    assert |posts| == |multiset(posts)| == |multiset(created.store)| == |store| + 1;
  }

  /** A request served end to end: `connectDB` on the shared cache, then the handler.
      `attempt` is how the connection attempt the call awaits settles. */
  method ServeCollection(cache: ConnectionCache.Cached, attempt: ConnectionCache.AttemptOutcome,
                         req: Request, store: seq<Post>, find: FindOutcome, write: WriteOutcome,
                         clock1: Time, clock2: Time)
    returns (h: Handled)
    modifies cache
    ensures var (after, connected) := ConnectionCache.ConnectStep(old(cache.Snapshot()), attempt);
      cache.Snapshot() == after && h == Handle(req, connected, store, find, write, clock1, clock2)
  {
    var connected := cache.ConnectDB(attempt);
    h := Handle(req, connected, store, find, write, clock1, clock2);
  }
}
