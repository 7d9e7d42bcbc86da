# Skill-share talk store

This project models the talk store of the skill-sharing server in `server.mjs`. The server keeps a dictionary
`talks` that maps a title to a record `{title, presenter, summary, comments}`. Four route handlers read and change it:

- GET `/talks/{title}` returns the record as JSON, or 404.
- DELETE `/talks/{title}` removes the record if it is there. It always answers 204.
- PUT `/talks/{title}` checks the body. It answers 400, or it stores a new record with no comments and answers 204.
- POST `/talks/{title}/comments` checks the body first (400), then checks that the talk exists (404). Otherwise it appends the comment and answers 204.

A handler that changes the store calls `server.updated()`. The server object also holds a `version` and a `waiting` list.

Module `TalkStore` (`talk_store.dfy`) holds the records, the parsed request bodies and the replies. It has one pure step
function per handler. Each step function says which reply comes back, what the store becomes and whether `updated()` is
called. `Handle` dispatches one request. `Run` handles a sequence of requests, one atomic step each. The lemmas state what
the handlers promise, both for single calls and for whole runs.

Module `Server` (`server.dfy`) holds the class `SkillShareServer`. Its fields are `talks`, `version`, `waiting` and a
counter `updatedCalls`. There is one method per handler, and each works on the fields in place. Each method is proved
to produce the reply and the new store of its step function. Each also increments `updatedCalls` exactly when the step
function says `updated()` is called. A handler that does not call `updated()` leaves `version` and `waiting` alone.
Nothing is promised about `version` or `waiting` after a call of `updated()`, whose body is not in `server.mjs`.
`Scenario` is a small client of the class: it creates, comments on, reads and deletes a talk.

Inputs and outside calls are modelled as follows:

- A request body is the parsed JSON value, not the byte stream. `None` stands for a body that parses to a falsy JSON
  value (`null`, `false`, `0`, `""`). An empty body does not reach the handler's checks, because parsing it throws.
  A truthy body is a record. Each of its fields is `Absent`, `Str(s)` or `NonString`, which is what `typeof` distinguishes. A truthy body that is not an object, such as a number, has every field `Absent`.
- The title is an input string, as the router extracts it from the path.
- `updated()` is defined outside the file. It is an event counted by `updatedCalls`. It leaves the talks alone, and the
  model says nothing about its effect on `version` or `waiting`.
- A reply with no `status` is written as 200. A reply with no headers is written as `text/plain` (`server.mjs:75`).
  `StatusOf` and `ContentTypeOf` apply these defaults.

Three behaviours of the handlers worth noting:

- DELETE of an absent title does not call `updated()`.
- POST validates the body before it looks up the talk.
- Empty strings are accepted for `presenter`, `summary`, `author` and `message`.

## Model

| member | source | states |
|---|---|---|
| TalkStore.StatusOf | server.mjs:75-75 | a reply written without a status is sent as 200; otherwise its own status is sent |
| TalkStore.ContentTypeOf | server.mjs:75-75 | a reply written without headers is sent as `text/plain`; otherwise its own content type is sent |
| TalkStore.ValidTalkBody | server.mjs:31-35 | a PUT body fails when it is falsy, when `presenter` is not a string or when `summary` is not a string, and passes when it is truthy and both are strings (empty ones included) |
| TalkStore.ValidCommentBody | server.mjs:53-57 | a POST body fails when it is falsy, when `author` is not a string or when `message` is not a string, and passes when it is truthy and both are strings (empty ones included) |
| TalkStore.GetStep | server.mjs:10-19 | the store is unchanged and `updated()` is not called; the status is 200 exactly when the title is present, and then the body is that record as JSON; otherwise 404 with the "No talk" message as plain text |
| TalkStore.DeleteStep | server.mjs:21-27 | the status is always 204 with no body; the title is absent afterwards and every other entry is unchanged; `updated()` is called exactly when the title was present; an absent title leaves the store unchanged |
| TalkStore.PutStep | server.mjs:29-46 | 204 exactly when the body is truthy and both `presenter` and `summary` are strings, and `updated()` is called exactly then; otherwise 400 "Bad talk data" with the store unchanged; a valid PUT stores `{title, presenter, summary, []}` under the title, replacing any earlier record, and leaves other titles unchanged |
| TalkStore.PostCommentStep | server.mjs:48-67 | a bad body gives 400 "Bad comment data"; a good body to an absent talk gives 404; in both cases nothing changes; a good body to a present talk gives 204, keeps the earlier comments in place, adds the new one at the end, changes nothing else of that talk or of other talks, and `updated()` is called exactly in this case |
| TalkStore.Handle | server.mjs:10-67 | for any request, `updated()` is called exactly when the request mutates (a present DELETE, a valid PUT, a valid POST to a present talk); otherwise the store is unchanged; titles other than the request's are never touched; the status is one of 200, 204, 400, 404 |
| TalkStore.Run | server.mjs:10-67 | a run produces one reply per request and at most one `updated()` call per request |
| TalkStore.PutThenGet | server.mjs:38-43 | after a valid PUT, a GET of the same title answers 200 with the new record and an empty comment list |
| TalkStore.PutDiscardsComments | server.mjs:38-43 | a PUT over an existing talk discards its comments |
| TalkStore.PutAcceptsEmptyStrings | server.mjs:31-37 | empty strings pass validation as presenter and summary |
| TalkStore.DeleteThenGetAndDeleteAgain | server.mjs:21-27 | after a DELETE, a GET answers 404; a second DELETE leaves the store unchanged and does not call `updated()` |
| TalkStore.PostValidatesBodyFirst | server.mjs:53-58 | a bad comment body gets the same 400 reply whatever the store holds, whether the talk exists or not |
| TalkStore.PostThenGet | server.mjs:59-62 | after a valid POST to a present talk, a GET returns the earlier comments in order followed by the new one |
| TalkStore.HandlePreservesTitlesMatch | server.mjs:38-43 | if every record is filed under its own title, every handler keeps it so |
| TalkStore.HandleExtends | server.mjs:59-61 | a request that does not PUT or DELETE a talk can only append comments to it |
| TalkStore.UpdatedCountsMutations | server.mjs:21-67 | over any run, the number of `updated()` calls equals the number of mutating requests; rejected requests and no-op deletes add nothing |
| TalkStore.InertRunChangesNothing | server.mjs:10-67 | a run in which no request mutates leaves the store as it was and never calls `updated()` |
| TalkStore.PutsCountOne | server.mjs:38-45 | a run of valid PUTs calls `updated()` once per request |
| TalkStore.CommentsAppendOnly | server.mjs:59-61 | unless a talk is PUT or DELETEd during a run, it survives the run with the same title, presenter and summary, and its old comments are a prefix of its new ones |
| TalkStore.TitlesComeFromPuts | server.mjs:38-38 | every title in the store after a run was there at the start or was the target of a valid PUT in the run |
| TalkStore.RunPreservesTitlesMatch | server.mjs:38-43 | a run keeps every record filed under its own title |
| Server.SkillShareServer.constructor | server.mjs:86-89 | a new server holds exactly the given talks at version 0 with an empty `waiting` list (and no `updated()` calls yet) |
| Server.SkillShareServer.Updated | server.mjs:44-44 | one call of `updated()` is counted once and leaves the talks alone; nothing is promised about `version` or `waiting` |
| Server.SkillShareServer.Get | server.mjs:10-19 | reads the store without changing it; 200 with the record exactly when the title is present, else 404 with the "No talk" message |
| Server.SkillShareServer.Delete | server.mjs:21-27 | the reply and the new store are those of `DeleteStep`; `updatedCalls` grows by one exactly when the title was present; if the title was absent, `version` and `waiting` are unchanged |
| Server.SkillShareServer.Put | server.mjs:29-46 | the reply and the new store are those of `PutStep`; `updatedCalls` grows by one exactly on a valid body; on a bad body `version` and `waiting` are unchanged |
| Server.SkillShareServer.PostComment | server.mjs:48-67 | the reply and the new store are those of `PostCommentStep`; `updatedCalls` grows by one exactly on a valid body to a present talk; otherwise `version` and `waiting` are unchanged |

## Left out

- HTTP plumbing is not modelled: creating, starting and stopping the server, writing the head and body, static files and the "Not found" page (`server.mjs:1-7`, `69-83`, `90-102`). These are I/O and outside libraries. Only the defaults applied to a reply at `server.mjs:75` are modelled.
- The router (`router.mjs`) and the path patterns are not modelled; `router.mjs` is not part of this model. The title reaches the handler as an input string.
- JSON parsing of the request stream is not modelled. Only the parsed result is. An empty or malformed body makes parsing throw, and that path is left out with the error handling below.
- The error handler in `serveFromRouter` is not modelled. On an error without a status it refers to an undefined `err` (`server.mjs:72`), so it raises a ReferenceError and defines no reply.
- JSON serialisation of the returned record is not modelled. `TalkJson(t)` stands for the serialised record `t`.
- The effect of `updated()` is not modelled: no version bump, no wake-up of waiting requests. The function is not defined in `server.mjs`. The model only counts its calls.
- The element type of `waiting` is not modelled. No code in `server.mjs` puts anything in it, so entries are opaque request numbers.
- Concurrency between requests is not modelled. Each handler runs as one atomic step.
- Server.SkillShareServer.PostComment: a posted comment keeps only `author` and `message`. The source pushes the whole parsed object, extra fields included.
- Talk records are values, so aliasing is not modelled. If a record's comment array were shared with a holder outside the dictionary, that holder would also see a pushed comment.
- JavaScript's special `__proto__` key is not modelled. The dictionary is treated as a plain map from every string to a record, so a title of `__proto__` behaves like any other title.
