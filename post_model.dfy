/** The Post schema (models/Post.ts): which documents Mongoose accepts, with which messages
    it rejects the others, and the timestamp defaults, together with `Post.create`, which
    applies the defaults, validates and then inserts. */
module PostModel {
  import opened Wrappers
  import opened Js

  /** A `Date`, as milliseconds since the epoch. */
  type Time = int

  const MaxTitleLength: nat := 60

  const TitleRequired: string := "Please provide a title for this post."
  const TitleTooLong: string := "Title cannot be more than 60 characters"
  const ContentRequired: string := "Please provide content for this post."
  const AuthorRequired: string := "Please provide an author name."

  /** The fields handed to `Post.create`, each possibly absent. */
  datatype Draft = Draft(
    title: Option<string>,
    content: Option<string>,
    author: Option<string>,
    createdAt: Option<Time>,
    updatedAt: Option<Time>)

  /** The document identifier the database assigns on insertion. */
  datatype PostId = PostId(value: nat)

  /** A stored post. */
  datatype Post = Post(
    id: PostId,
    title: string,
    content: string,
    author: string,
    createdAt: Time,
    updatedAt: Time)

  /** One failed validator: the path it guards and its message. */
  datatype Violation = Violation(path: string, message: string)

  /** The documents the schema accepts. A String path's `required` validator accepts exactly
      the truthy strings, and `maxlength` bounds the title. */
  predicate Acceptable(d: Draft)
  {
    Truthy(d.title) && |d.title.value| <= MaxTitleLength && Truthy(d.content) && Truthy(d.author)
  }

  /** What every stored post satisfies. */
  predicate WellFormed(p: Post)
  {
    0 < |p.title| <= MaxTitleLength && p.content != "" && p.author != ""
  }

  /** The title path's validators: `required`, then `maxlength`. */
  function TitleViolations(title: Option<string>): seq<Violation>
  {
    if !Truthy(title) then [Violation("title", TitleRequired)]
    else if |title.value| > MaxTitleLength then [Violation("title", TitleTooLong)]
    else []
  }

  /** A path with only a `required` validator. */
  function RequiredViolations(path: string, v: Option<string>, message: string): seq<Violation>
  {
    if Truthy(v) then [] else [Violation(path, message)]
  }

  /** The position of a path in the schema: title, content, author. */
  function SchemaPosition(path: string): nat
  {
    if path == "title" then 0 else if path == "content" then 1 else 2
  }

  /** The validators that fail on `d`, in schema order. */
  function Violations(d: Draft): (r: seq<Violation>)
    ensures r == [] <==> Acceptable(d)
    ensures Violation("title", TitleRequired) in r <==> !Truthy(d.title)
    ensures Violation("title", TitleTooLong) in r <==> Truthy(d.title) && |d.title.value| > MaxTitleLength
    ensures Truthy(d.title) && |d.title.value| == MaxTitleLength ==>
      forall v <- r :: v.path != "title"
    ensures !Truthy(d.content) <==> Violation("content", ContentRequired) in r
    ensures !Truthy(d.author) <==> Violation("author", AuthorRequired) in r
    ensures forall v <- r :: v in [Violation("title", TitleRequired), Violation("title", TitleTooLong),
                                   Violation("content", ContentRequired), Violation("author", AuthorRequired)]
    ensures forall i, j :: 0 <= i < j < |r| ==> r[i].path != r[j].path
    ensures forall i, j :: 0 <= i < j < |r| ==> SchemaPosition(r[i].path) < SchemaPosition(r[j].path)
    ensures |r| <= 3
  {
    TitleViolations(d.title)
    + RequiredViolations("content", d.content, ContentRequired)
    + RequiredViolations("author", d.author, AuthorRequired)
  }

  /** `path: message` for each violation, separated by `, `. */
  function JoinViolations(vs: seq<Violation>): string
  {
    if vs == [] then ""
    else if |vs| == 1 then vs[0].path + ": " + vs[0].message
    else vs[0].path + ": " + vs[0].message + ", " + JoinViolations(vs[1..])
  }

  /** The error Mongoose throws when validation fails. */
  function ValidationError(vs: seq<Violation>): Thrown
  {
    ErrorInstance("Post validation failed: " + JoinViolations(vs))
  }

  /** Document construction: each timestamp left unset defaults to `now` (`Date.now`). */
  function WithDefaults(d: Draft, now: Time): (r: Draft)
    ensures r.createdAt.Some? && r.updatedAt.Some?
    ensures d.createdAt.Some? ==> r.createdAt == d.createdAt
    ensures d.updatedAt.Some? ==> r.updatedAt == d.updatedAt
    ensures d.createdAt.None? ==> r.createdAt == Some(now)
    ensures d.updatedAt.None? ==> r.updatedAt == Some(now)
    ensures r.title == d.title && r.content == d.content && r.author == d.author
  {
    d.(createdAt := Some(if d.createdAt.Some? then d.createdAt.value else now),
       updatedAt := Some(if d.updatedAt.Some? then d.updatedAt.value else now))
  }

  /** How the insertion into the collection ends once validation passed. */
  datatype WriteOutcome = Stored(id: PostId) | WriteFailed(error: Thrown)

  /** `Post.create(fields)` at time `now`: apply the defaults, validate, insert. */
  function Create(fields: Draft, now: Time, write: WriteOutcome): (r: Result<Post, Thrown>)
    ensures r.Ok? <==> Acceptable(fields) && write.Stored?
    ensures !Acceptable(fields) ==> r == Err(ValidationError(Violations(fields)))
    ensures Acceptable(fields) && write.WriteFailed? ==> r == Err(write.error)
    ensures r.Ok? ==> WellFormed(r.value) && r.value.id == write.id
    ensures r.Ok? ==>
      Some(r.value.title) == fields.title
      && Some(r.value.content) == fields.content
      && Some(r.value.author) == fields.author
    ensures r.Ok? ==>
      r.value.createdAt == (if fields.createdAt.Some? then fields.createdAt.value else now)
      && r.value.updatedAt == (if fields.updatedAt.Some? then fields.updatedAt.value else now)
  {
    var doc := WithDefaults(fields, now);
    var violations := Violations(doc);
    if violations != [] then Err(ValidationError(violations))
    else match write
      case Stored(id) =>
        Ok(Post(id, doc.title.value, doc.content.value, doc.author.value,
                doc.createdAt.value, doc.updatedAt.value))
      case WriteFailed(e) => Err(e)
  }

  /** A document whose only fault is an overlong title is rejected by the maxlength
      validator alone, whatever the insertion would have done. */
  lemma OverlongTitleRejected(fields: Draft, now: Time, write: WriteOutcome)
    requires Truthy(fields.title) && Truthy(fields.content) && Truthy(fields.author)
    requires |fields.title.value| > MaxTitleLength
    ensures Create(fields, now, write) == Err(ValidationError([Violation("title", TitleTooLong)]))
  {
    assert Violations(WithDefaults(fields, now)) == [Violation("title", TitleTooLong)];
  }

  /** The message that rejection carries. */
  lemma OverlongTitleMessage()
    ensures ValidationError([Violation("title", TitleTooLong)])
         == ErrorInstance("Post validation failed: title: " + TitleTooLong)
  {
    assert JoinViolations([Violation("title", TitleTooLong)]) == "title" + ": " + TitleTooLong;
    assert "title" + ": " == "title: ";
    assert "Post validation failed: " + "title: " == "Post validation failed: title: ";
    assert "Post validation failed: " + ("title: " + TitleTooLong)
        == ("Post validation failed: " + "title: ") + TitleTooLong;
  }

  /** A title of exactly 60 characters passes; one of 61 is rejected, with the maxlength
      message and no other. */
  lemma TitleLengthBoundary(d: Draft)
    requires Truthy(d.content) && Truthy(d.author) && d.title.Some?
    ensures |d.title.value| == MaxTitleLength ==> Violations(d) == []
    ensures |d.title.value| == MaxTitleLength + 1 ==> Violations(d) == [Violation("title", TitleTooLong)]
  {
  }
}
