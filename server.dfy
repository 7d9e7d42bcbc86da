/**
  The skill-sharing server object and its four talk handlers. The server owns
  the talk dictionary, a version number and a list of parked long-poll
  requests; `updated()` is the change notification, kept here as a counter of
  how often it was called. Each handler method works on the fields in place
  and is proved to do exactly what the matching step function of TalkStore
  describes; a handler that does not call `updated()` leaves the version and
  the parked requests alone.
 */
module Server {
  import opened TalkStore

  /** A parked long-poll request; what the long-poll code keeps for it is outside this model. */
  type PendingRequest = nat

  class SkillShareServer {
    var talks: Talks
    var version: int
    var waiting: seq<PendingRequest>
    /** How many times the handlers have called `updated()`. */
    var updatedCalls: nat

    /** A fresh server holds exactly the given talks, at version 0, with nobody waiting. */
    constructor (talks: Talks)
      ensures this.talks == talks
      ensures version == 0 && waiting == []
      ensures updatedCalls == 0
    {
      this.talks := talks;
      version := 0;
      waiting := [];
      updatedCalls := 0;
    }

    /**
      The change notification. Its body is not part of this model: a call is
      counted and leaves the talks alone, and nothing is promised about what it
      does to `version` or `waiting`.
     */
    method Updated()
      modifies this
      ensures updatedCalls == old(updatedCalls) + 1
      ensures talks == old(talks)
    {
      updatedCalls := updatedCalls + 1;
    }

    /** GET /talks/{title}: the record as JSON with the default status 200, or 404. */
    method Get(title: string) returns (r: Reply)
      ensures r == GetStep(talks, title).reply
      ensures StatusOf(r) == 200 <==> title in talks
      ensures title in talks ==> r.body == TalkJson(talks[title])
      ensures title !in talks ==> StatusOf(r) == 404 && r.body == Text(NoTalkMessage(title))
    {
      if title in talks {
        r := Reply(None, TalkJson(talks[title]), Some(ApplicationJson));
      } else {
        r := Reply(Some(404), Text(NoTalkMessage(title)), None);
      }
    }

    /** DELETE /talks/{title}: always 204; only a present talk is removed and notified. */
    method Delete(title: string) returns (r: Reply)
      modifies this
      ensures var o := DeleteStep(old(talks), title);
        && r == o.reply && talks == o.talks
        && updatedCalls == old(updatedCalls) + (if o.updated then 1 else 0)
      ensures !DeleteStep(old(talks), title).updated ==> version == old(version) && waiting == old(waiting)
    {
      if title in talks {
        talks := talks - {title};
        Updated();
      }
      r := Reply(Some(204), NoBody, None);
    }

    /** PUT /talks/{title}: 400 on a bad body, otherwise a new record with no comments and 204. */
    method Put(title: string, body: Option<TalkBody>) returns (r: Reply)
      modifies this
      ensures var o := PutStep(old(talks), title, body);
        && r == o.reply && talks == o.talks
        && updatedCalls == old(updatedCalls) + (if o.updated then 1 else 0)
      ensures !PutStep(old(talks), title, body).updated ==> version == old(version) && waiting == old(waiting)
    {
      if body.None? || !body.value.presenter.Str? || !body.value.summary.Str? {
        return Reply(Some(400), Text(BadTalkData), None);
      }
      talks := talks[title := Talk(title, body.value.presenter.s, body.value.summary.s, [])];
      Updated();
      r := Reply(Some(204), NoBody, None);
    }

    /** POST /talks/{title}/comments: 400 on a bad body, then 404 on an unknown talk, else append and 204. */
    method PostComment(title: string, body: Option<CommentBody>) returns (r: Reply)
      modifies this
      ensures var o := PostCommentStep(old(talks), title, body);
        && r == o.reply && talks == o.talks
        && updatedCalls == old(updatedCalls) + (if o.updated then 1 else 0)
      ensures !PostCommentStep(old(talks), title, body).updated ==> version == old(version) && waiting == old(waiting)
    {
      if body.None? || !body.value.author.Str? || !body.value.message.Str? {
        r := Reply(Some(400), Text(BadCommentData), None);
      } else if title in talks {
        var talk := talks[title];
        talks := talks[title := talk.(comments := talk.comments + [CommentOf(body.value)])];
        Updated();
        r := Reply(Some(204), NoBody, None);
      } else {
        r := Reply(Some(404), Text(NoTalkMessage(title)), None);
      }
    }
  }

  /** A client of the handlers: a talk is created, commented on, read back and deleted. */
  method Scenario()
  {
    var server := new SkillShareServer(map[]);
    assert server.version == 0 && server.waiting == [];
    var r := server.Put("Grok", Some(TalkBody(Str("Alice"), Str("..."))));
    assert StatusOf(r) == 204 && server.updatedCalls == 1;
    r := server.PostComment("Grok", Some(CommentBody(Str("Bob"), NonString)));
    assert StatusOf(r) == 400 && server.updatedCalls == 1;
    r := server.PostComment("Nope", Some(CommentBody(Str("Bob"), Str("Hi"))));
    assert StatusOf(r) == 404;
    r := server.PostComment("Grok", Some(CommentBody(Str("Bob"), Str("Hi"))));
    assert StatusOf(r) == 204 && server.updatedCalls == 2;
    r := server.Get("Grok");
    assert r.body == TalkJson(Talk("Grok", "Alice", "...", [Comment("Bob", "Hi")]));
    r := server.Delete("Grok");
    r := server.Delete("Grok");
    assert StatusOf(r) == 204 && server.updatedCalls == 3;
    r := server.Get("Grok");
    assert StatusOf(r) == 404;
  }
}
