/** The collection endpoint of the serverless API (api/tasks/index.js):
    GET lists the tasks, POST validates and normalises a new one and hands it
    to the store. */
module TasksIndex {
  import opened Seqs
  import Tasks
  import JsStrings
  import opened Db

  datatype Request = Request(httpMethod: string, headers: map<string, string>, body: Tasks.Payload)

  datatype ResponseBody =
    | NoContent
    | ErrorBody(error: string)
    | TaskBody(task: Obj)
    | ListBody(tasks: seq<Obj>, lastUpdated: string)

  datatype Response = Response(status: int, headers: seq<(string, string)>, body: ResponseBody)

  const UnauthorizedMessage := "Unauthorized"
  const TitleRequiredMessage := "title is required"
  const MethodNotAllowedMessage := "Method not allowed"
  const InternalErrorMessage := "Internal server error"

  /** `req.body || {}`; None when reading the body throws because the text is
      not JSON. */
  function BodyOf(p: Tasks.Payload): (b: Option<Tasks.Body>)
    ensures b.None? <==> p.Malformed?
    ensures p.NullValue? ==> b == Some(Tasks.EmptyBody)
    ensures p.Object? ==> b == Some(p.body)
  {
    match p
    case Object(body) => Some(body)
    case NullValue => Some(Tasks.EmptyBody)
    case Malformed => None
  }

  /** What the handler does with a request, before any store call. */
  datatype Action =
    | Preflight
    | Denied
    | List
    | Create(task: Obj)
    | Fail(status: int, error: string)

  /** The handler's dispatch: preflight before authentication, authentication
      before any storage call, then GET, POST, and 405 for anything else. */
  function Decide(req: Request, secret: Option<string>, now: string): (a: Action)
    ensures a.Preflight? <==> req.httpMethod == "OPTIONS"
    ensures a.Denied? <==> req.httpMethod != "OPTIONS" && !CheckAuth(secret, req.headers)
    ensures a.List? <==> req.httpMethod == "GET" && CheckAuth(secret, req.headers)
    ensures a.Create? <==>
      && req.httpMethod == "POST" && CheckAuth(secret, req.headers)
      && BodyOf(req.body).Some? && Tasks.NormaliseDraft(BodyOf(req.body).value, now).Accepted?
    ensures a.Create? ==> a.task == DraftObj(Tasks.NormaliseDraft(BodyOf(req.body).value, now).draft)
    ensures a == Fail(400, TitleRequiredMessage) <==>
      && req.httpMethod == "POST" && CheckAuth(secret, req.headers)
      && BodyOf(req.body).Some? && !Tasks.TitleValid(BodyOf(req.body).value.title)
    ensures a == Fail(405, MethodNotAllowedMessage) <==>
      req.httpMethod !in ["OPTIONS", "GET", "POST"] && CheckAuth(secret, req.headers)
    ensures a.Fail? ==> a == Fail(400, TitleRequiredMessage) || a == Fail(405, MethodNotAllowedMessage)
                        || a == Fail(500, InternalErrorMessage)
  {
    if req.httpMethod == "OPTIONS" then Preflight
    else if !CheckAuth(secret, req.headers) then Denied
    else if req.httpMethod == "GET" then List
    else if req.httpMethod == "POST" then
      match BodyOf(req.body)
      case None => Fail(500, InternalErrorMessage)
      case Some(body) =>
        var r := Tasks.NormaliseDraft(body, now);
        if r == Tasks.Rejected(Tasks.TitleRequired) then Fail(400, TitleRequiredMessage)
        else if r.Rejected? then Fail(500, InternalErrorMessage)
        else Create(DraftObj(r.draft))
    else Fail(405, MethodNotAllowedMessage)
  }

  /** A task that passes validation reaches the store with no id, every field
      defined, and completedAt set exactly when its status is 'done'. */
  lemma CreatedObjWellFormed(req: Request, secret: Option<string>, now: string)
    requires now != ""
    requires Decide(req, secret, now).Create?
    ensures var o := Decide(req, secret, now).task;
      o.id == Undefined && Complete(o) && ObjConsistent(o)
  {
  }

  /** A POST with only a title creates a manual development task to do. */
  lemma TitleOnlyPost(headers: map<string, string>, secret: Option<string>, title: string, now: string)
    requires CheckAuth(secret, headers)
    requires JsStrings.Trim(title) != ""
    ensures Decide(Request("POST", headers, Tasks.Object(Tasks.EmptyBody.(title := Tasks.Str(title)))), secret, now)
      == Create(Obj(Undefined, Val(JsStrings.Trim(title)), Val(""), Val("development"), Val("todo"),
                    Val(now), Null, Val("manual")))
  {
    Tasks.TitleOnlyDefaults(title, now);
  }

  /** The handler run against the in-memory store. Every response carries the
      CORS headers; only an accepted POST changes the list. */
  method Serve(store: MemoryStore, req: Request, secret: Option<string>, now: string, freshId: string)
    returns (resp: Response)
    modifies store
    ensures resp.headers == CorsHeaders
    ensures var a := Decide(req, secret, now);
      && (a.Preflight? ==> resp == Response(204, CorsHeaders, NoContent) && store.mem == old(store.mem))
      && (a.Denied? ==>
            resp == Response(401, CorsHeaders, ErrorBody(UnauthorizedMessage)) && store.mem == old(store.mem))
      && (a.Fail? ==> resp == Response(a.status, CorsHeaders, ErrorBody(a.error)) && store.mem == old(store.mem))
      && (a.List? ==>
            && resp == Response(200, CorsHeaders, ListBody(old(store.Tasks()), now))
            && store.Tasks() == old(store.Tasks()))
      && (a.Create? ==>
            && resp == Response(201, CorsHeaders, TaskBody(a.task.(id := Val(freshId))))
            && store.Tasks() == [a.task.(id := Val(freshId))] + old(store.Tasks()))
  {
    var a := Decide(req, secret, now);
    match a
    case Preflight =>
      resp := Response(204, CorsHeaders, NoContent);
    case Denied =>
      resp := Response(401, CorsHeaders, ErrorBody(UnauthorizedMessage));
    case Fail(status, error) =>
      resp := Response(status, CorsHeaders, ErrorBody(error));
    case List =>
      var tasks := store.ListTasks();
      resp := Response(200, CorsHeaders, ListBody(tasks, now));
    case Create(task) =>
      var created := store.CreateTask(task, freshId);
      resp := Response(201, CorsHeaders, TaskBody(created));
  }
}
