/** The file-backed CRUD function (netlify/functions/tasks.js): one handler
    that routes on the HTTP method and the last path segment, and changes the
    task list of the loaded data record in place. */
module NetlifyTasks {
  import opened Seqs
  import opened JsStrings
  import opened Tasks
  import opened Bearer

  /** SEED_TASKS, written when the data file is missing or corrupt. */
  function SeedTasks(): seq<Task> {
    [ Task("1", "Security Audit", AuditText,
           Security, Done, "2026-02-03T10:00:00Z", Some("2026-02-03T10:30:00Z"), Bot),
      Task("2", "Build Dashboard", DashboardText,
           Development, Done, "2026-02-04T09:00:00Z", Some("2026-02-06T18:47:00Z"), Manual),
      Task("3", "Setup CI/CD Pipeline", PipelineText,
           Automation, InProgress, "2026-02-06T14:00:00Z", None, Bot),
      Task("4", "API Rate Limit Monitor", MonitorText,
           Maintenance, Todo, "2026-02-07T08:00:00Z", None, Bot),
      Task("5", "Research LLM Caching", CachingText,
           Research, Todo, "2026-02-07T09:30:00Z", None, Manual) ]
  }

  lemma SeedTasksWellFormed()
    ensures |SeedTasks()| == 5
    ensures AllConsistent(SeedTasks())
    ensures DistinctIds(SeedTasks())
  {
  }

  /** The parts of the serverless event the handler reads. An absent or empty
      `event.body` goes through the `|| '{}'` default and so arrives here as
      Object(EmptyBody), which POST rejects with 400; NullValue is only the
      JSON text `null`, whose property read throws into the 500 path. */
  datatype Event = Event(httpMethod: string, path: string, headers: map<string, string>, body: Payload)

  datatype ResponseBody =
    | NoContent
    | ErrorBody(error: string)
    | TaskBody(task: Task)
    | DataBody(tasks: seq<Task>, lastUpdated: string)

  datatype Response = Response(statusCode: int, headers: seq<(string, string)>, body: ResponseBody)

  /** headers(): CORS and JSON headers, sent with every response. */
  const CorsHeaders: seq<(string, string)> := [
    ("Access-Control-Allow-Origin", "*"),
    ("Access-Control-Allow-Headers", "Content-Type, Authorization"),
    ("Access-Control-Allow-Methods", "GET, POST, PATCH, DELETE, OPTIONS"),
    ("Content-Type", "application/json")]

  function Respond(statusCode: int, body: ResponseBody): Response {
    Response(statusCode, CorsHeaders, body)
  }

  const UnauthorizedMessage := "Unauthorized — provide a valid API key in the Authorization header"
  const TitleRequiredMessage := "title is required"
  const TaskNotFoundMessage := "Task not found"
  const NotFoundMessage := "Not found"
  const InternalErrorMessage := "Internal server error"

  /** `event.headers.authorization || event.headers.Authorization || ''`:
      both casings are read, the lower-case one first. */
  function AuthorizationHeader(headers: map<string, string>): (h: string)
    ensures Header(headers, "authorization") != "" ==> h == headers["authorization"]
    ensures Header(headers, "authorization") == "" ==> h == Header(headers, "Authorization")
  {
    if Header(headers, "authorization") != "" then headers["authorization"]
    else Header(headers, "Authorization")
  }

  function CheckAuth(secret: Option<string>, headers: map<string, string>): bool {
    Authorised(secret, AuthorizationHeader(headers))
  }

  /** A request carrying the secret as a bearer token under either casing of
      the header name passes, and with a secret configured a request without
      the header is refused. */
  lemma CheckAuthCasings(secret: string, other: string)
    requires secret != ""
    ensures CheckAuth(Some(secret), map["authorization" := Prefix + secret])
    ensures CheckAuth(Some(secret), map["Authorization" := Prefix + secret])
    ensures !CheckAuth(Some(secret), map[])
  {
    assert !StartsWith("", Prefix);
  }

  /** `path.replace(/\/$/, '')`: at most one trailing slash is removed. */
  function StripTrailingSlash(path: string): (r: string)
    ensures |path| > 0 && path[|path| - 1] == '/' ==> r == path[..|path| - 1]
    ensures !(|path| > 0 && path[|path| - 1] == '/') ==> r == path
  {
    if |path| > 0 && path[|path| - 1] == '/' then path[..|path| - 1] else path
  }

  /** The last element of `s.split('/')`. */
  function AfterLastSlash(s: string): (r: string)
    ensures |r| <= |s| && r == s[|s| - |r|..]
    ensures '/' !in r
    ensures |r| == |s| || s[|s| - |r| - 1] == '/'
  {
    if |s| == 0 then ""
    else if s[|s| - 1] == '/' then ""
    else
      var r := AfterLastSlash(s[..|s| - 1]);
      assert s[..|s| - 1][|s| - 1 - |r|..] + [s[|s| - 1]] == s[|s| - 1 - |r|..];
      r + [s[|s| - 1]]
  }

  function LastSegment(path: string): string {
    AfterLastSlash(StripTrailingSlash(path))
  }

  /** A trailing slash does not change the route. */
  lemma TrailingSlashIgnored(path: string)
    requires path == [] || path[|path| - 1] != '/'
    ensures LastSegment(path + "/") == LastSegment(path)
  {
    assert (path + "/")[..|path|] == path;
  }

  /** The branch of the handler an event reaches. */
  datatype Route =
    | Preflight
    | Denied
    | ListTasks
    | CreateTask
    | PatchTask(id: string)
    | DeleteTask(id: string)
    | NoRoute

  function RouteOf(event: Event, secret: Option<string>): (r: Route) {
    if event.httpMethod == "OPTIONS" then Preflight
    else if !CheckAuth(secret, event.headers) then Denied
    else
      var last := LastSegment(event.path);
      var isTasksEndpoint := last == "tasks";
      if event.httpMethod == "GET" && isTasksEndpoint then ListTasks
      else if event.httpMethod == "POST" && isTasksEndpoint then CreateTask
      else if event.httpMethod == "PATCH" && !isTasksEndpoint then PatchTask(last)
      else if event.httpMethod == "DELETE" && !isTasksEndpoint then DeleteTask(last)
      else NoRoute
  }

  /** Preflight comes before authentication, authentication before routing;
      the collection answers GET and POST, an item PATCH and DELETE, and
      everything else is not found. */
  lemma RouteOfCases(event: Event, secret: Option<string>)
    ensures var r := RouteOf(event, secret);
      && (r == Preflight <==> event.httpMethod == "OPTIONS")
      && (r == Denied <==> event.httpMethod != "OPTIONS" && !CheckAuth(secret, event.headers))
      && (r == ListTasks ==> event.httpMethod == "GET" && LastSegment(event.path) == "tasks")
      && (r == CreateTask ==> event.httpMethod == "POST" && LastSegment(event.path) == "tasks")
      && (r.PatchTask? ==> event.httpMethod == "PATCH" && r.id == LastSegment(event.path) && r.id != "tasks")
      && (r.DeleteTask? ==> event.httpMethod == "DELETE" && r.id == LastSegment(event.path) && r.id != "tasks")
      && (r == NoRoute <==>
            && event.httpMethod != "OPTIONS" && CheckAuth(secret, event.headers)
            && !(event.httpMethod in {"GET", "POST"} && LastSegment(event.path) == "tasks")
            && !(event.httpMethod in {"PATCH", "DELETE"} && LastSegment(event.path) != "tasks"))
  {
  }

  /** Preflight is answered whatever the credentials: the secret and the
      headers play no part. */
  lemma PreflightBeforeAuth(event: Event, secret: Option<string>, headers: map<string, string>)
    requires event.httpMethod == "OPTIONS"
    ensures RouteOf(event.(headers := headers), secret) == Preflight
  {
  }

  /** The create step: JSON.parse failing, or a JSON null whose properties
      cannot be read, throws inside the handler's try block. */
  function ParseCreate(body: Payload, now: string): (r: Creation)
    ensures body.Object? ==> r == NormaliseDraft(body.body, now)
    ensures !body.Object? ==> r == Rejected(Thrown)
  {
    match body
    case Object(b) => NormaliseDraft(b, now)
    case _ => Rejected(Thrown)
  }

  /** `!task.completedAt`: a completion time that is missing or empty. */
  predicate Unset(completedAt: Option<string>) {
    completedAt.None? || completedAt.value == ""
  }

  /** `if (body.title !== undefined) task.title = String(body.title).trim()`,
      and the same for the description. */
  function PatchedText(current: string, v: JsVal): (r: string)
    ensures v == Undefined ==> r == current
    ensures v != Undefined ==> r == Trim(ToStr(v))
  {
    if v != Undefined then Trim(ToStr(v)) else current
  }

  /** A category in the body replaces the current one only when it is valid. */
  function PatchedCategory(current: Category, v: JsVal): (c: Category)
    ensures v.Str? && v.s in CategoryNames ==> CategoryName(c) == v.s
    ensures !(v.Str? && v.s in CategoryNames) ==> c == current
  {
    if Truthy(v) && v.Str? && ParseCategory(v.s).Some? then ParseCategory(v.s).value else current
  }

  /** A valid status in the body replaces the current one; done stamps the
      completion time only when none is set, any other status clears it. */
  function PatchedStatus(t: Task, v: JsVal, now: string): (r: (Status, Option<string>))
    ensures v.Str? && v.s in StatusNames ==>
      && StatusName(r.0) == v.s
      && (r.0 == Done && !Unset(t.completedAt) ==> r.1 == t.completedAt)
      && (r.0 == Done && Unset(t.completedAt) ==> r.1 == Some(now))
      && (r.0 != Done ==> r.1 == None)
    ensures !(v.Str? && v.s in StatusNames) ==> r == (t.status, t.completedAt)
  {
    if Truthy(v) && v.Str? && ParseStatus(v.s).Some? then
      var s := ParseStatus(v.s).value;
      var c := if s == Done && Unset(t.completedAt) then Some(now) else t.completedAt;
      (s, if s != Done then None else c)
    else (t.status, t.completedAt)
  }

  /** The PATCH rules applied to one task: only the fields present in the body
      change; id, createdAt and agent never do; the invariant is kept. */
  function ApplyPatch(t: Task, body: Body, now: string): (r: Task)
    ensures r.id == t.id && r.createdAt == t.createdAt && r.agent == t.agent
    ensures r.title == PatchedText(t.title, body.title)
    ensures r.description == PatchedText(t.description, body.description)
    ensures r.category == PatchedCategory(t.category, body.category)
    ensures (r.status, r.completedAt) == PatchedStatus(t, body.status, now)
    ensures Consistent(t) ==> Consistent(r)
  {
    var (status, completedAt) := PatchedStatus(t, body.status, now);
    t.(title := PatchedText(t.title, body.title),
       description := PatchedText(t.description, body.description),
       category := PatchedCategory(t.category, body.category),
       status := status, completedAt := completedAt)
  }

  /** Patching a done task to done again keeps its original completion time. */
  lemma RedundantDoneKeepsCompletion(t: Task, now: string)
    requires t.status == Done && !Unset(t.completedAt)
    ensures ApplyPatch(t, EmptyBody.(status := Str("done")), now) == t
  {
  }

  /** A PATCH may leave a title empty: it is not re-validated. */
  lemma PatchMayBlankTitle(t: Task, now: string)
    ensures ApplyPatch(t, EmptyBody.(title := Str("   ")), now).title == ""
  {
    assert IsSpace(' ');
  }

  function HasId(id: string): Task -> bool {
    (t: Task) => t.id == id
  }

  /** After a successful DELETE of a task in a list with distinct ids, no task
      with that id is left. */
  lemma {:induction false} DeleteRemovesId(ts: seq<Task>, id: string)
    requires DistinctIds(ts)
    requires FirstIndex(ts, HasId(id)).Some?
    ensures var i := FirstIndex(ts, HasId(id)).value;
      forall t :: t in ts[..i] + ts[i + 1..] ==> t.id != id
  {
    var i := FirstIndex(ts, HasId(id)).value;
    forall t | t in ts[..i] + ts[i + 1..] ensures t.id != id {
      var k :| 0 <= k < |ts[..i] + ts[i + 1..]| && (ts[..i] + ts[i + 1..])[k] == t;
      if k < i {
        assert ts[k] == t;
      } else {
        assert ts[k + 1] == t;
        assert ts[i].id == id;
      }
    }
  }

  /** A created task with an id not yet used keeps the ids distinct. */
  lemma {:induction false} AppendKeepsDistinct(ts: seq<Task>, t: Task)
    requires DistinctIds(ts)
    requires forall k :: 0 <= k < |ts| ==> ts[k].id != t.id
    ensures DistinctIds(ts + [t])
  {
    var r := ts + [t];
    forall i, j | 0 <= i < j < |r| ensures r[i].id != r[j].id {
      if j == |ts| {
        assert r[i] == ts[i];
      } else {
        assert r[i] == ts[i] && r[j] == ts[j];
      }
    }
  }

  /** The data record: the task list and the time of the last save. */
  class FileStore {
    var tasks: seq<Task>
    var lastUpdated: string

    ghost predicate Valid()
      reads this
    {
      AllConsistent(tasks)
    }

    /** loadData when the file is missing or corrupt: the seed tasks, saved at once. */
    constructor Seeded(now: string)
      ensures tasks == SeedTasks() && lastUpdated == now
      ensures Valid()
    {
      tasks := SeedTasks();
      lastUpdated := now;
      SeedTasksWellFormed();
    }

    /** The handler: `now` is the clock, `freshId` the id a POST would assign. */
    method Handle(event: Event, secret: Option<string>, now: string, freshId: string) returns (resp: Response)
      requires Valid()
      modifies this
      ensures Valid()
      ensures resp.headers == CorsHeaders
      ensures RouteOf(event, secret) in {Preflight, Denied, ListTasks, NoRoute} ==>
        tasks == old(tasks) && lastUpdated == old(lastUpdated)
      ensures RouteOf(event, secret) == Preflight ==> resp == Response(204, CorsHeaders, NoContent)
      ensures RouteOf(event, secret) == Denied ==> resp == Respond(401, ErrorBody(UnauthorizedMessage))
      ensures RouteOf(event, secret) == ListTasks ==> resp == Respond(200, DataBody(old(tasks), old(lastUpdated)))
      ensures RouteOf(event, secret) == NoRoute ==> resp == Respond(404, ErrorBody(NotFoundMessage))
      ensures RouteOf(event, secret) == CreateTask ==>
        var c := ParseCreate(event.body, now);
        && (c.Accepted? ==>
              && tasks == old(tasks) + [WithId(c.draft, freshId)] && lastUpdated == now
              && resp == Respond(201, TaskBody(WithId(c.draft, freshId))))
        && (c == Rejected(TitleRequired) ==>
              && tasks == old(tasks) && lastUpdated == old(lastUpdated)
              && resp == Respond(400, ErrorBody(TitleRequiredMessage)))
        && (c == Rejected(Thrown) ==>
              && tasks == old(tasks) && lastUpdated == old(lastUpdated)
              && resp == Respond(500, ErrorBody(InternalErrorMessage)))
      ensures RouteOf(event, secret).PatchTask? ==>
        var i := FirstIndex(old(tasks), HasId(RouteOf(event, secret).id));
        && (i.None? ==>
              && tasks == old(tasks) && lastUpdated == old(lastUpdated)
              && resp == Respond(404, ErrorBody(TaskNotFoundMessage)))
        && (i.Some? && !event.body.Object? ==>
              && tasks == old(tasks) && lastUpdated == old(lastUpdated)
              && resp == Respond(500, ErrorBody(InternalErrorMessage)))
        && (i.Some? && event.body.Object? ==>
              && tasks == old(tasks)[i.value := ApplyPatch(old(tasks)[i.value], event.body.body, now)]
              && lastUpdated == now
              && resp == Respond(200, TaskBody(tasks[i.value])))
      ensures RouteOf(event, secret).DeleteTask? ==>
        var i := FirstIndex(old(tasks), HasId(RouteOf(event, secret).id));
        && (i.None? ==>
              && tasks == old(tasks) && lastUpdated == old(lastUpdated)
              && resp == Respond(404, ErrorBody(TaskNotFoundMessage)))
        && (i.Some? ==>
              && tasks == old(tasks)[..i.value] + old(tasks)[i.value + 1..]
              && lastUpdated == now
              && resp == Respond(200, TaskBody(old(tasks)[i.value])))
    {
      var route := RouteOf(event, secret);
      match route {
        case Preflight =>
          resp := Response(204, CorsHeaders, NoContent);
        case Denied =>
          resp := Respond(401, ErrorBody(UnauthorizedMessage));
        case ListTasks =>
          resp := Respond(200, DataBody(tasks, lastUpdated));
        case NoRoute =>
          resp := Respond(404, ErrorBody(NotFoundMessage));
        case CreateTask =>
          resp := Create(event.body, now, freshId);
        case PatchTask(id) =>
          resp := Patch(id, event.body, now);
        case DeleteTask(id) =>
          resp := Delete(id, now);
      }
    }

    /** The POST branch: a valid body is appended with the fresh id and saved. */
    method Create(body: Payload, now: string, freshId: string) returns (resp: Response)
      requires Valid()
      modifies this
      ensures Valid()
      ensures var c := ParseCreate(body, now);
        && (c.Accepted? ==>
              && tasks == old(tasks) + [WithId(c.draft, freshId)] && lastUpdated == now
              && resp == Respond(201, TaskBody(WithId(c.draft, freshId))))
        && (c == Rejected(TitleRequired) ==>
              && tasks == old(tasks) && lastUpdated == old(lastUpdated)
              && resp == Respond(400, ErrorBody(TitleRequiredMessage)))
        && (c == Rejected(Thrown) ==>
              && tasks == old(tasks) && lastUpdated == old(lastUpdated)
              && resp == Respond(500, ErrorBody(InternalErrorMessage)))
    {
      var c := ParseCreate(body, now);
      match c {
        case Rejected(TitleRequired) =>
          resp := Respond(400, ErrorBody(TitleRequiredMessage));
        case Rejected(Thrown) =>
          resp := Respond(500, ErrorBody(InternalErrorMessage));
        case Accepted(d) =>
          var task := WithId(d, freshId);
          CreatedIsConsistent(body.body, now, freshId);
          tasks := tasks + [task];
          lastUpdated := now;
          resp := Respond(201, TaskBody(task));
      }
    }

    /** The PATCH branch: the first task with the id is patched and saved. */
    method Patch(id: string, body: Payload, now: string) returns (resp: Response)
      requires Valid()
      modifies this
      ensures Valid()
      ensures var i := FirstIndex(old(tasks), HasId(id));
        && (i.None? ==>
              && tasks == old(tasks) && lastUpdated == old(lastUpdated)
              && resp == Respond(404, ErrorBody(TaskNotFoundMessage)))
        && (i.Some? && !body.Object? ==>
              && tasks == old(tasks) && lastUpdated == old(lastUpdated)
              && resp == Respond(500, ErrorBody(InternalErrorMessage)))
        && (i.Some? && body.Object? ==>
              && tasks == old(tasks)[i.value := ApplyPatch(old(tasks)[i.value], body.body, now)]
              && lastUpdated == now
              && resp == Respond(200, TaskBody(tasks[i.value])))
    {
      var i := FirstIndex(tasks, HasId(id));
      if i.None? {
        resp := Respond(404, ErrorBody(TaskNotFoundMessage));
      } else if !body.Object? {
        resp := Respond(500, ErrorBody(InternalErrorMessage));
      } else {
        var patched := ApplyPatch(tasks[i.value], body.body, now);
        tasks := tasks[i.value := patched];
        lastUpdated := now;
        resp := Respond(200, TaskBody(patched));
      }
    }

    /** The DELETE branch: the first task with the id is removed and returned. */
    method Delete(id: string, now: string) returns (resp: Response)
      requires Valid()
      modifies this
      ensures Valid()
      ensures var i := FirstIndex(old(tasks), HasId(id));
        && (i.None? ==>
              && tasks == old(tasks) && lastUpdated == old(lastUpdated)
              && resp == Respond(404, ErrorBody(TaskNotFoundMessage)))
        && (i.Some? ==>
              && tasks == old(tasks)[..i.value] + old(tasks)[i.value + 1..]
              && lastUpdated == now
              && resp == Respond(200, TaskBody(old(tasks)[i.value])))
    {
      var i := FirstIndex(tasks, HasId(id));
      if i.None? {
        resp := Respond(404, ErrorBody(TaskNotFoundMessage));
      } else {
        var removed := tasks[i.value];
        tasks := tasks[..i.value] + tasks[i.value + 1..];
        lastUpdated := now;
        resp := Respond(200, TaskBody(removed));
      }
    }
  }
}
