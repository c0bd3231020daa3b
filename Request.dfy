/** The two exchanges with the remote task service: fetching a project's
    tasks, and the sync command that closes the pending task.

    The network is a `Remote` that logs every request it is handed and answers
    from a script of outcomes; an exhausted script behaves as a transport
    failure. UUIDs come from a `UuidSource` whose values are opaque. */
module Request {
  import opened Wrappers
  import opened ConfigFile
  import opened Items

  const TODOIST_URL := "https://api.todoist.com"
  const PROJECT_DATA_URL := "/sync/v9/projects/get_data"
  const SYNC_URL := "/sync/v9/sync"
  const JSON_CONTENT := "application/json"
  const ITEM_CLOSE := "item_close"

  const NO_RESPONSE := "Did not get response from server"
  const UNREADABLE_RESPONSE := "Could not read response text"

  /** One sync command: `{"type", "uuid", "temp_id", "args": {"id"}}`. */
  datatype Command = Command(kind: string, uuid: string, tempId: string, argsId: Option<string>)

  /** The JSON bodies the program posts. */
  datatype Body = ProjectData(projectId: string) | Commands(commands: seq<Command>)

  datatype Request = Request(url: string, contentType: string, authorization: string, body: Body)

  /** What came back: nothing at all, or a status with the body text (None
      when it cannot be read). `debugText` is the `{:#?}` rendering of that
      read, which the model does not compute. */
  datatype HttpOutcome = NoResponse | Response(status: nat, text: Option<string>, debugText: string)

  /** `StatusCode::is_success`. */
  predicate IsSuccess(status: nat)
  {
    200 <= status < 300
  }

  /** The status check of `post_todoist_sync`. */
  function ResponseResult(o: HttpOutcome): (r: Result<string>)
    ensures r.Ok? <==> o.Response? && IsSuccess(o.status) && o.text.Some?
    ensures r.Ok? ==> r.value == o.text.value
    ensures o.NoResponse? ==> r == Err(NO_RESPONSE)
    ensures o.Response? && IsSuccess(o.status) && o.text.None? ==> r == Err(UNREADABLE_RESPONSE)
    ensures o.Response? && !IsSuccess(o.status) ==> r == Err("Error: " + o.debugText)
  {
    match o
    case NoResponse => Err(NO_RESPONSE)
    case Response(status, text, debugText) =>
      if !IsSuccess(status) then Err("Error: " + debugText)
      else if text.None? then Err(UNREADABLE_RESPONSE)
      else Ok(text.value)
  }

  /** The request `post_todoist_sync` sends: the endpoint path joined to the
      service's base URL, with the token as bearer credential. */
  function TodoistRequest(token: string, path: string, body: Body): (r: Request)
    ensures r.url == TODOIST_URL + path && r.url[..|TODOIST_URL|] == TODOIST_URL
    ensures r.authorization == "Bearer " + token && r.contentType == JSON_CONTENT
    ensures r.body == body
  {
    Request(TODOIST_URL + path, JSON_CONTENT, "Bearer " + token, body)
  }

  /** The body of `complete_item`: a single `item_close` command for `id`,
      whatever `id` is, `None` included. */
  function CloseBody(uuid: string, tempId: string, id: Option<string>): (b: Body)
    ensures b.Commands? && |b.commands| == 1
    ensures b.commands[0].kind == ITEM_CLOSE && b.commands[0].argsId == id
    ensures b.commands[0].uuid == uuid && b.commands[0].tempId == tempId
  {
    Commands([Command(ITEM_CLOSE, uuid, tempId, id)])
  }

  function NextReply(replies: seq<HttpOutcome>): HttpOutcome
  {
    if replies == [] then NoResponse else replies[0]
  }

  function LaterReplies(replies: seq<HttpOutcome>): seq<HttpOutcome>
  {
    if replies == [] then [] else replies[1..]
  }

  /** What `items_for_project` returns once the exchange yielded `o`. */
  function FetchedItems(ops: ItemOps, o: HttpOutcome): (r: Result<seq<Item>>)
    ensures ResponseResult(o).Err? ==> r == Err(ResponseResult(o).error)
    ensures ResponseResult(o).Ok? ==> r == ops.jsonToItems(ResponseResult(o).value)
  {
    match ResponseResult(o)
    case Err(e) => Err(e)
    case Ok(json) => ops.jsonToItems(json)
  }

  class Remote {
    var sent: seq<Request>
    var replies: seq<HttpOutcome>

    constructor (replies: seq<HttpOutcome>)
      ensures sent == [] && this.replies == replies
    {
      sent := [];
      this.replies := replies;
    }

    /** Sends `req` and takes the next scripted outcome. */
    method Exchange(req: Request) returns (o: HttpOutcome)
      modifies this
      ensures sent == old(sent) + [req]
      ensures o == NextReply(old(replies)) && replies == LaterReplies(old(replies))
    {
      sent := sent + [req];
      o := NextReply(replies);
      replies := LaterReplies(replies);
    }
  }

  class UuidSource {
    const values: nat -> string
    var drawn: nat

    constructor (values: nat -> string)
      ensures this.values == values && drawn == 0
    {
      this.values := values;
      drawn := 0;
    }

    /** `new_uuid`: the next opaque value; each call is a separate draw. */
    method NewUuid() returns (u: string)
      modifies this
      ensures u == values(old(drawn)) && drawn == old(drawn) + 1
    {
      u := values(drawn);
      drawn := drawn + 1;
    }
  }

  /** `post_todoist_sync`: exactly one request, and the status mapped to a
      result. */
  method PostTodoistSync(remote: Remote, token: string, path: string, body: Body)
    returns (r: Result<string>)
    modifies remote
    ensures remote.sent == old(remote.sent) + [TodoistRequest(token, path, body)]
    ensures remote.replies == LaterReplies(old(remote.replies))
    ensures r == ResponseResult(NextReply(old(remote.replies)))
  {
    var outcome := remote.Exchange(TodoistRequest(token, path, body));
    r := ResponseResult(outcome);
  }

  /** `items_for_project`: posts `{"project_id": id}` to the project-data
      endpoint and decodes the answer. */
  method ItemsForProject(remote: Remote, ops: ItemOps, config: Config, projectId: string)
    returns (r: Result<seq<Item>>)
    modifies remote
    ensures remote.sent == old(remote.sent) + [TodoistRequest(config.token, PROJECT_DATA_URL, ProjectData(projectId))]
    ensures remote.replies == LaterReplies(old(remote.replies))
    ensures r == FetchedItems(ops, NextReply(old(remote.replies)))
  {
    var json := PostTodoistSync(remote, config.token, PROJECT_DATA_URL, ProjectData(projectId));
    if json.Err? {
      return Err(json.error);
    }
    r := ops.jsonToItems(json.value);
  }

  /** The state the core acts on: the file store, the requests sent so far
      and the outcomes the service has yet to give. */
  datatype World = World(files: map<string, Entry>, sent: seq<Request>, replies: seq<HttpOutcome>)

  /** One exchange with the service: `req` is logged and the next outcome is
      consumed. */
  function Sent(w: World, req: Request): World
  {
    w.(sent := w.sent + [req], replies := LaterReplies(w.replies))
  }

  /** What `complete_item` does to `w` and what it returns, with `uuid` and
      `tempId` the two values drawn for the command. */
  function CompleteItemOutcome(w: World, readOnly: set<string>, uuid: string, tempId: string, config: Config)
    : (World, Result<string>)
  {
    var posted := Sent(w, TodoistRequest(config.token, SYNC_URL, CloseBody(uuid, tempId, config.nextId)));
    match ResponseResult(NextReply(w.replies))
    case Err(e) => (posted, Err(e))
    case Ok(_) =>
      if config.path in w.files && config.path !in readOnly
      then (posted.(files := w.files[config.path := Stored(ClearNextId(config))]), Ok(DONE))
      else (posted, Err(SAVE_ERROR))
  }

  /** `complete_item`: posts one `item_close` command for the pointer, and
      clears and saves the pointer only once the post has succeeded. */
  method CompleteItem(fs: FileSystem, remote: Remote, uuids: UuidSource, config: Config)
    returns (r: Result<string>)
    modifies fs`files, remote, uuids
    ensures uuids.drawn == old(uuids.drawn) + 2
    ensures (World(fs.files, remote.sent, remote.replies), r)
            == CompleteItemOutcome(World(old(fs.files), old(remote.sent), old(remote.replies)), fs.readOnly,
                                   uuids.values(old(uuids.drawn)), uuids.values(old(uuids.drawn) + 1), config)
    ensures remote.sent == old(remote.sent) + [TodoistRequest(config.token, SYNC_URL,
              CloseBody(uuids.values(old(uuids.drawn)), uuids.values(old(uuids.drawn) + 1), config.nextId))]
    ensures remote.replies == LaterReplies(old(remote.replies))
    ensures ResponseResult(NextReply(old(remote.replies))).Err? ==>
      r == Err(ResponseResult(NextReply(old(remote.replies))).error) && fs.files == old(fs.files)
    ensures ResponseResult(NextReply(old(remote.replies))).Ok? ==>
      if config.path in old(fs.files) && config.path !in fs.readOnly
      then r == Ok(DONE) && fs.files == old(fs.files)[config.path := Stored(ClearNextId(config))]
      else r == Err(SAVE_ERROR) && fs.files == old(fs.files)
  {
    var uuid := uuids.NewUuid();
    var tempId := uuids.NewUuid();
    var posted := PostTodoistSync(remote, config.token, SYNC_URL, CloseBody(uuid, tempId, config.nextId));
    if posted.Err? {
      return Err(posted.error);
    }
    var saved := fs.Save(ClearNextId(config));
    if saved.Err? {
      return Err(saved.error);
    }
    return Ok(DONE);
  }
}
