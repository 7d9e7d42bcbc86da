/**
  The talk store of the skill-sharing server: the records it keeps, the request
  bodies its route handlers accept, and one pure step function per handler
  (GET, DELETE, PUT, POST comment) that says which reply comes back, what the
  store becomes and whether `updated()` is called. The class in module Server
  is proved to follow these step functions; the lemmas here state what the
  handlers promise, one call at a time and over whole sequences of requests.
 */
module TalkStore {

  datatype Option<+T> = None | Some(value: T)

  /** A comment as the POST handler appends it: who wrote it and what it says. */
  datatype Comment = Comment(author: string, message: string)

  /** A talk record `{title, presenter, summary, comments}`. */
  datatype Talk = Talk(title: string, presenter: string, summary: string, comments: seq<Comment>)

  /** The store: an own-property dictionary from title to talk. */
  type Talks = map<string, Talk>

  /** One property of a parsed JSON body, as `typeof` sees it. */
  datatype Field = Absent | Str(s: string) | NonString

  /** The truthy parsed body of a PUT; a body that parses to a falsy JSON value (`null`, `false`, `0`, `""`) is `None`. */
  datatype TalkBody = TalkBody(presenter: Field, summary: Field)

  /** The truthy parsed body of a POST comment; a body that parses to a falsy JSON value is `None`. */
  datatype CommentBody = CommentBody(author: Field, message: Field)

  /** The body of a reply; `TalkJson` is the talk that is serialised as JSON. */
  datatype Payload = NoBody | Text(text: string) | TalkJson(talk: Talk)

  datatype ContentType = TextPlain | ApplicationJson

  /** What a handler returns; a missing status or header is filled in when the reply is written. */
  datatype Reply = Reply(status: Option<int>, body: Payload, headers: Option<ContentType>)

  /** A reply, the store after the handler, and whether the handler called `updated()`. */
  datatype Outcome = Outcome(reply: Reply, talks: Talks, updated: bool)

  /** One request as the router hands it over: the verb and the title taken from the path. */
  datatype Request =
    | GetTalk(title: string)
    | DeleteTalk(title: string)
    | PutTalk(title: string, talkBody: Option<TalkBody>)
    | PostComment(title: string, commentBody: Option<CommentBody>)

  const BadTalkData: string := "Bad talk data"
  const BadCommentData: string := "Bad comment data"

  function NoTalkMessage(title: string): string
  {
    "No talk '" + title + "' found"
  }

  /** The status actually written: a reply without one is sent as 200. */
  function StatusOf(r: Reply): (s: int)
    ensures r.status.Some? ==> s == r.status.value
    ensures r.status.None? ==> s == 200
  {
    match r.status
    case Some(s) => s
    case None => 200
  }

  /** The content type actually written: a reply without headers is sent as text/plain. */
  function ContentTypeOf(r: Reply): (c: ContentType)
    ensures r.headers.Some? ==> c == r.headers.value
    ensures r.headers.None? ==> c == TextPlain
  {
    match r.headers
    case Some(h) => h
    case None => TextPlain
  }

  /** The PUT body is truthy and both `presenter` and `summary` are strings (empty ones too). */
  predicate ValidTalkBody(b: Option<TalkBody>)
    ensures b.None? ==> !ValidTalkBody(b)
    ensures b.Some? && !b.value.presenter.Str? ==> !ValidTalkBody(b)
    ensures b.Some? && !b.value.summary.Str? ==> !ValidTalkBody(b)
    ensures b.Some? && b.value.presenter.Str? && b.value.summary.Str? ==> ValidTalkBody(b)
  {
    b.Some? && b.value.presenter.Str? && b.value.summary.Str?
  }

  /** The POST body is truthy and both `author` and `message` are strings (empty ones too). */
  predicate ValidCommentBody(b: Option<CommentBody>)
    ensures b.None? ==> !ValidCommentBody(b)
    ensures b.Some? && !b.value.author.Str? ==> !ValidCommentBody(b)
    ensures b.Some? && !b.value.message.Str? ==> !ValidCommentBody(b)
    ensures b.Some? && b.value.author.Str? && b.value.message.Str? ==> ValidCommentBody(b)
  {
    b.Some? && b.value.author.Str? && b.value.message.Str?
  }

  function CommentOf(b: CommentBody): Comment
    requires b.author.Str? && b.message.Str?
  {
    Comment(b.author.s, b.message.s)
  }

  /** Every title other than `title` has the same entry (or the same absence) in `a` and `b`. */
  ghost predicate AgreeOutside(a: Talks, b: Talks, title: string)
  {
    forall t :: t != title ==> (t in a <==> t in b) && (t in a && t in b ==> a[t] == b[t])
  }

  /** `later` is `earlier` with zero or more comments appended and nothing else changed. */
  predicate Extends(earlier: Talk, later: Talk)
  {
    && later.title == earlier.title
    && later.presenter == earlier.presenter
    && later.summary == earlier.summary
    && earlier.comments <= later.comments
  }

  /** Every record is filed under its own title. */
  ghost predicate TitlesMatch(talks: Talks)
  {
    forall t :: t in talks ==> talks[t].title == t
  }

  /** The request changes the store and triggers the notification. */
  predicate Mutates(talks: Talks, req: Request)
  {
    match req
    case GetTalk(_) => false
    case DeleteTalk(t) => t in talks
    case PutTalk(_, b) => ValidTalkBody(b)
    case PostComment(t, b) => ValidCommentBody(b) && t in talks
  }

  /** The request is a valid PUT of `title`. */
  predicate CreatesTitle(req: Request, title: string)
  {
    req.PutTalk? && req.title == title && ValidTalkBody(req.talkBody)
  }

  /** GET /talks/{title}. */
  function GetStep(talks: Talks, title: string): (o: Outcome)
    ensures o.talks == talks && !o.updated
    ensures StatusOf(o.reply) == 200 <==> title in talks
    ensures title in talks ==>
      o.reply.body == TalkJson(talks[title]) && ContentTypeOf(o.reply) == ApplicationJson
    ensures title !in talks ==>
      StatusOf(o.reply) == 404 && o.reply.body == Text(NoTalkMessage(title))
      && ContentTypeOf(o.reply) == TextPlain
  {
    if title in talks then
      Outcome(Reply(None, TalkJson(talks[title]), Some(ApplicationJson)), talks, false)
    else
      Outcome(Reply(Some(404), Text(NoTalkMessage(title)), None), talks, false)
  }

  /** DELETE /talks/{title}. */
  function DeleteStep(talks: Talks, title: string): (o: Outcome)
    ensures StatusOf(o.reply) == 204 && o.reply.body == NoBody
    ensures title !in o.talks
    ensures AgreeOutside(o.talks, talks, title)
    ensures o.updated <==> title in talks
    ensures title !in talks ==> o.talks == talks
  {
    if title in talks then
      Outcome(Reply(Some(204), NoBody, None), talks - {title}, true)
    else
      Outcome(Reply(Some(204), NoBody, None), talks, false)
  }

  /** PUT /talks/{title}. */
  function PutStep(talks: Talks, title: string, body: Option<TalkBody>): (o: Outcome)
    ensures StatusOf(o.reply) == 204 <==> ValidTalkBody(body)
    ensures o.updated <==> ValidTalkBody(body)
    ensures !ValidTalkBody(body) ==>
      StatusOf(o.reply) == 400 && o.reply.body == Text(BadTalkData) && o.talks == talks
    ensures ValidTalkBody(body) ==>
      && o.reply.body == NoBody
      && title in o.talks
      && o.talks[title] == Talk(title, body.value.presenter.s, body.value.summary.s, [])
      && AgreeOutside(o.talks, talks, title)
  {
    if !ValidTalkBody(body) then
      Outcome(Reply(Some(400), Text(BadTalkData), None), talks, false)
    else
      var talk := Talk(title, body.value.presenter.s, body.value.summary.s, []);
      Outcome(Reply(Some(204), NoBody, None), talks[title := talk], true)
  }

  /** POST /talks/{title}/comments: the body is checked before the talk is looked up. */
  function PostCommentStep(talks: Talks, title: string, body: Option<CommentBody>): (o: Outcome)
    ensures o.updated <==> ValidCommentBody(body) && title in talks
    ensures !o.updated ==> o.talks == talks
    ensures !ValidCommentBody(body) ==>
      StatusOf(o.reply) == 400 && o.reply.body == Text(BadCommentData)
    ensures ValidCommentBody(body) && title !in talks ==>
      StatusOf(o.reply) == 404 && o.reply.body == Text(NoTalkMessage(title))
    ensures ValidCommentBody(body) && title in talks ==>
      && StatusOf(o.reply) == 204 && o.reply.body == NoBody
      && title in o.talks
      && Extends(talks[title], o.talks[title])
      && |o.talks[title].comments| == |talks[title].comments| + 1
      && o.talks[title].comments[|talks[title].comments|] == CommentOf(body.value)
      && AgreeOutside(o.talks, talks, title)
  {
    if !ValidCommentBody(body) then
      Outcome(Reply(Some(400), Text(BadCommentData), None), talks, false)
    else if title in talks then
      var talk := talks[title];
      var talk' := talk.(comments := talk.comments + [CommentOf(body.value)]);
      Outcome(Reply(Some(204), NoBody, None), talks[title := talk'], true)
    else
      Outcome(Reply(Some(404), Text(NoTalkMessage(title)), None), talks, false)
  }

  /** The router's dispatch of one request to its handler. */
  function Handle(talks: Talks, req: Request): (o: Outcome)
    ensures o.updated <==> Mutates(talks, req)
    ensures !o.updated ==> o.talks == talks
    ensures AgreeOutside(o.talks, talks, req.title)
    ensures StatusOf(o.reply) in {200, 204, 400, 404}
  {
    match req
    case GetTalk(t) => GetStep(talks, t)
    case DeleteTalk(t) => DeleteStep(talks, t)
    case PutTalk(t, b) => PutStep(talks, t, b)
    case PostComment(t, b) => PostCommentStep(talks, t, b)
  }

  /** The state after a series of requests, each handled as one atomic step. */
  datatype Trace = Trace(talks: Talks, replies: seq<Reply>, updatedCalls: nat)

  function Run(talks: Talks, reqs: seq<Request>): (tr: Trace)
    ensures |tr.replies| == |reqs|
    ensures tr.updatedCalls <= |reqs|
    decreases |reqs|
  {
    if reqs == [] then
      Trace(talks, [], 0)
    else
      var o := Handle(talks, reqs[0]);
      var rest := Run(o.talks, reqs[1..]);
      Trace(rest.talks, [o.reply] + rest.replies, rest.updatedCalls + if o.updated then 1 else 0)
  }

  /** The number of requests in `reqs` that mutate the store they reach. */
  function MutationCount(talks: Talks, reqs: seq<Request>): nat
    decreases |reqs|
  {
    if reqs == [] then 0
    else
      var next := if Mutates(talks, reqs[0]) then 1 else 0;
      next + MutationCount(Handle(talks, reqs[0]).talks, reqs[1..])
  }

  // ---------------------------------------------------------------------
  // Properties relating several calls
  // ---------------------------------------------------------------------

  /** A valid PUT followed by a GET returns the new record with an empty comment list. */
  lemma PutThenGet(talks: Talks, title: string, body: Option<TalkBody>)
    requires ValidTalkBody(body)
    ensures var g := GetStep(PutStep(talks, title, body).talks, title);
      && StatusOf(g.reply) == 200
      && g.reply.body == TalkJson(Talk(title, body.value.presenter.s, body.value.summary.s, []))
  {
  }

  /** A PUT over an existing talk discards its comments. */
  lemma PutDiscardsComments(talks: Talks, title: string, body: Option<TalkBody>)
    requires title in talks && ValidTalkBody(body)
    ensures PutStep(talks, title, body).talks[title].comments == []
  {
  }

  /** Empty strings are accepted as presenter and summary. */
  lemma PutAcceptsEmptyStrings(talks: Talks, title: string)
    ensures var o := PutStep(talks, title, Some(TalkBody(Str(""), Str(""))));
      StatusOf(o.reply) == 204 && o.talks[title] == Talk(title, "", "", [])
  {
  }

  /** A DELETE followed by a GET answers 404; a second DELETE changes nothing and notifies nobody. */
  lemma DeleteThenGetAndDeleteAgain(talks: Talks, title: string)
    ensures var d := DeleteStep(talks, title);
      && StatusOf(GetStep(d.talks, title).reply) == 404
      && DeleteStep(d.talks, title).talks == d.talks
      && !DeleteStep(d.talks, title).updated
  {
  }

  /** A bad comment body is answered 400 with no change whatever the store holds. */
  lemma PostValidatesBodyFirst(a: Talks, b: Talks, title: string, body: Option<CommentBody>)
    requires !ValidCommentBody(body)
    ensures PostCommentStep(a, title, body).reply == PostCommentStep(b, title, body).reply
    ensures StatusOf(PostCommentStep(a, title, body).reply) == 400
  {
  }

  /** A valid comment posted to an existing talk is the last one a GET returns, after all earlier ones. */
  lemma PostThenGet(talks: Talks, title: string, body: Option<CommentBody>)
    requires title in talks && ValidCommentBody(body)
    ensures var g := GetStep(PostCommentStep(talks, title, body).talks, title);
      && StatusOf(g.reply) == 200
      && g.reply.body.TalkJson?
      && g.reply.body.talk.comments == talks[title].comments + [CommentOf(body.value)]
  {
  }

  /** Every handler keeps each record filed under its own title. */
  lemma HandlePreservesTitlesMatch(talks: Talks, req: Request)
    requires TitlesMatch(talks)
    ensures TitlesMatch(Handle(talks, req).talks)
  {
  }

  /** A request that names another title, or that does not PUT or DELETE `title`, only appends comments to it. */
  lemma HandleExtends(talks: Talks, req: Request, title: string)
    requires title in talks
    requires (req.PutTalk? || req.DeleteTalk?) ==> req.title != title
    ensures title in Handle(talks, req).talks
    ensures Extends(talks[title], Handle(talks, req).talks[title])
  {
  }

  // ---------------------------------------------------------------------
  // Properties of whole runs
  // ---------------------------------------------------------------------

  /** `updated()` fires exactly once per mutating request: rejected and no-op requests contribute nothing. */
  lemma {:induction false} UpdatedCountsMutations(talks: Talks, reqs: seq<Request>)
    ensures Run(talks, reqs).updatedCalls == MutationCount(talks, reqs)
    decreases |reqs|
  {
    if reqs != [] {
      UpdatedCountsMutations(Handle(talks, reqs[0]).talks, reqs[1..]);
    }
  }

  /** A run in which no request mutates leaves the store as it was and never calls `updated()`. */
  lemma {:induction false} InertRunChangesNothing(talks: Talks, reqs: seq<Request>)
    requires forall i :: 0 <= i < |reqs| ==> !Mutates(talks, reqs[i])
    ensures Run(talks, reqs).talks == talks
    ensures Run(talks, reqs).updatedCalls == 0
    decreases |reqs|
  {
    if reqs != [] {
      assert Handle(talks, reqs[0]).talks == talks;
      assert forall i :: 0 <= i < |reqs[1..]| ==> reqs[1..][i] == reqs[i + 1];
      InertRunChangesNothing(talks, reqs[1..]);
    }
  }

  /** A run of only valid PUTs calls `updated()` once per request. */
  lemma {:induction false} PutsCountOne(talks: Talks, reqs: seq<Request>)
    requires forall i :: 0 <= i < |reqs| ==> reqs[i].PutTalk? && ValidTalkBody(reqs[i].talkBody)
    ensures Run(talks, reqs).updatedCalls == |reqs|
    decreases |reqs|
  {
    if reqs != [] {
      assert forall i :: 0 <= i < |reqs[1..]| ==> reqs[1..][i] == reqs[i + 1];
      PutsCountOne(Handle(talks, reqs[0]).talks, reqs[1..]);
    }
  }

  /** Comments are append-only: unless a talk is PUT or DELETEd, its comments only grow. */
  lemma {:induction false} CommentsAppendOnly(talks: Talks, reqs: seq<Request>, title: string)
    requires title in talks
    requires forall i :: 0 <= i < |reqs| ==> (reqs[i].PutTalk? || reqs[i].DeleteTalk?) ==> reqs[i].title != title
    ensures title in Run(talks, reqs).talks
    ensures Extends(talks[title], Run(talks, reqs).talks[title])
    decreases |reqs|
  {
    if reqs != [] {
      var next := Handle(talks, reqs[0]).talks;
      HandleExtends(talks, reqs[0], title);
      assert forall i :: 0 <= i < |reqs[1..]| ==> reqs[1..][i] == reqs[i + 1];
      CommentsAppendOnly(next, reqs[1..], title);
      assert Run(talks, reqs).talks == Run(next, reqs[1..]).talks;
    }
  }

  /** Every title in the final store was there at the start or was the target of some valid PUT. */
  lemma {:induction false} TitlesComeFromPuts(talks: Talks, reqs: seq<Request>, title: string)
    requires title in Run(talks, reqs).talks
    ensures title in talks || exists i :: 0 <= i < |reqs| && CreatesTitle(reqs[i], title)
    decreases |reqs|
  {
    if reqs != [] {
      var next := Handle(talks, reqs[0]).talks;
      TitlesComeFromPuts(next, reqs[1..], title);
      if title in next && title !in talks {
        assert CreatesTitle(reqs[0], title);
      } else if title !in next {
        var i :| 0 <= i < |reqs[1..]| && CreatesTitle(reqs[1..][i], title);
        assert reqs[i + 1] == reqs[1..][i];
      }
    }
  }

  /** A run keeps every record filed under its own title. */
  lemma {:induction false} RunPreservesTitlesMatch(talks: Talks, reqs: seq<Request>)
    requires TitlesMatch(talks)
    ensures TitlesMatch(Run(talks, reqs).talks)
    decreases |reqs|
  {
    if reqs != [] {
      HandlePreservesTitlesMatch(talks, reqs[0]);
      RunPreservesTitlesMatch(Handle(talks, reqs[0]).talks, reqs[1..]);
    }
  }
}
