/** The shared storage module of the serverless API (api/_db.js): the bearer
    check, the snake_case row mapping and the in-memory fallback store used
    when no hosted database is configured. */
module Db {
  import opened Seqs
  import Tasks
  import Bearer
  import JsStrings

  /** A property of a JavaScript object: missing, null, or a string value. */
  datatype Prop = Undefined | Null | Val(value: string)

  /** `!p`: missing, null or the empty string. */
  predicate Falsy(p: Prop) {
    p.Undefined? || p.Null? || p.value == ""
  }

  /** A task object in the camelCase API shape. */
  datatype Obj = Obj(
    id: Prop,
    title: Prop,
    description: Prop,
    category: Prop,
    status: Prop,
    createdAt: Prop,
    completedAt: Prop,
    agent: Prop)

  /** A table row in the snake_case database shape. */
  datatype Row = Row(
    id: Prop,
    title: Prop,
    description: Prop,
    category: Prop,
    status: Prop,
    created_at: Prop,
    completed_at: Prop,
    agent: Prop)

  const EmptyObj := Obj(Undefined, Undefined, Undefined, Undefined, Undefined, Undefined, Undefined, Undefined)
  const EmptyRow := Row(Undefined, Undefined, Undefined, Undefined, Undefined, Undefined, Undefined, Undefined)

  /** checkAuth: only the lower-case `authorization` header is read. */
  function CheckAuth(secret: Option<string>, headers: map<string, string>): bool {
    Bearer.Authorised(secret, Bearer.Header(headers, "authorization"))
  }

  /** A secret sent under the capitalised header name alone is refused here,
      where netlify/functions/tasks.js accepts it. */
  lemma CheckAuthLowerCaseOnly(secret: string)
    requires secret != ""
    ensures CheckAuth(Some(secret), map["authorization" := Bearer.Prefix + secret])
    ensures !CheckAuth(Some(secret), map["Authorization" := Bearer.Prefix + secret])
  {
    assert !JsStrings.StartsWith("", Bearer.Prefix);
  }

  /** cors(res): set on every response of both handlers. */
  const CorsHeaders: seq<(string, string)> := [
    ("Access-Control-Allow-Origin", "*"),
    ("Access-Control-Allow-Methods", "GET,POST,PATCH,DELETE,OPTIONS"),
    ("Access-Control-Allow-Headers", "Content-Type,Authorization")]

  /** toApi: renames the timestamp columns; a missing description becomes ''
      and a falsy completed_at becomes null. */
  function ToApi(row: Row): (o: Obj)
    ensures o.id == row.id && o.title == row.title && o.category == row.category
    ensures o.status == row.status && o.agent == row.agent && o.createdAt == row.created_at
    ensures o.description.Val?
    ensures !Falsy(row.description) ==> o.description == row.description
    ensures Falsy(row.description) ==> o.description == Val("")
    ensures o.completedAt.Null? || o.completedAt.Val?
    ensures o.completedAt.Val? <==> !Falsy(row.completed_at)
    ensures o.completedAt.Val? ==> o.completedAt == row.completed_at
  {
    Obj(row.id, row.title,
        if Falsy(row.description) then Val("") else row.description,
        row.category, row.status, row.created_at,
        if Falsy(row.completed_at) then Null else row.completed_at,
        row.agent)
  }

  /** toDb: copies each defined field under its snake_case name; the id is
      never emitted. */
  function ToDb(o: Obj): (r: Row)
    ensures r.id == Undefined
    ensures r.title == o.title && r.description == o.description && r.category == o.category
    ensures r.status == o.status && r.agent == o.agent
    ensures r.created_at == o.createdAt && r.completed_at == o.completedAt
  {
    Row(Undefined, o.title, o.description, o.category, o.status, o.createdAt, o.completedAt, o.agent)
  }

  /** An empty update gives an empty row. */
  lemma EmptyUpdateEmptyRow(o: Obj)
    requires o.(id := Undefined) == EmptyObj
    ensures ToDb(o) == EmptyRow
  {
  }

  /** Every field defined, and completedAt either a non-empty timestamp or null. */
  predicate Complete(o: Obj) {
    && o.title.Val? && o.description.Val? && o.category.Val? && o.status.Val?
    && o.createdAt.Val? && o.agent.Val?
    && (o.completedAt.Null? || (o.completedAt.Val? && o.completedAt.value != ""))
  }

  /** toApi(toDb(t)) gives back every field of a complete task except its id. */
  lemma ApiDbRoundTrip(o: Obj)
    requires Complete(o)
    ensures ToApi(ToDb(o)) == o.(id := Undefined)
  {
  }

  /** In the other direction, a row with a description and a completed_at that
      is null or non-empty survives toDb(toApi(row)) except for its id. */
  lemma DbApiRoundTrip(row: Row)
    requires row.description.Val?
    requires row.completed_at.Null? || (row.completed_at.Val? && row.completed_at.value != "")
    ensures ToDb(ToApi(row)) == row.(id := Undefined)
  {
  }

  /** `completedAt != null` exactly when the status is 'done'. */
  predicate ObjConsistent(o: Obj) {
    o.completedAt.Val? <==> o.status == Val("done")
  }

  /** The JSON object of a draft, as api/tasks/index.js hands it to createTask. */
  function DraftObj(d: Tasks.Draft): (o: Obj)
    ensures o.id == Undefined
    ensures o.title == Val(d.title) && o.description == Val(d.description) && o.createdAt == Val(d.createdAt)
    ensures o.category.Val? && Tasks.ParseCategory(o.category.value) == Some(d.category)
    ensures o.status.Val? && Tasks.ParseStatus(o.status.value) == Some(d.status)
    ensures o.agent == Val("bot") || o.agent == Val("manual")
    ensures o.agent == Val("bot") <==> d.agent == Tasks.Bot
    ensures o.completedAt.Val? <==> d.completedAt.Some?
    ensures d.completedAt.Some? ==> o.completedAt == Val(d.completedAt.value)
    ensures d.completedAt.None? ==> o.completedAt == Null
    ensures Complete(o) || (d.completedAt.Some? && d.completedAt.value == "")
    ensures (d.completedAt.Some? <==> d.status == Tasks.Done) ==> ObjConsistent(o)
  {
    Obj(Undefined, Val(d.title), Val(d.description), Val(Tasks.CategoryName(d.category)),
        Val(Tasks.StatusName(d.status)), Val(d.createdAt),
        if d.completedAt.Some? then Val(d.completedAt.value) else Null,
        Val(Tasks.AgentName(d.agent)))
  }

  /** The in-memory seed list. */
  function SeedTasks(): seq<Obj> {
    [ Obj(Val("1"), Val("Security Audit"), Val(Tasks.AuditText),
          Val("security"), Val("done"), Val("2026-02-03T10:00:00Z"), Val("2026-02-03T10:30:00Z"), Val("bot")),
      Obj(Val("2"), Val("Build Dashboard"), Val(Tasks.DashboardText),
          Val("development"), Val("done"), Val("2026-02-04T09:00:00Z"), Val("2026-02-06T18:47:00Z"), Val("manual")),
      Obj(Val("3"), Val("Setup CI/CD Pipeline"), Val(Tasks.PipelineText),
          Val("automation"), Val("in-progress"), Val("2026-02-06T14:00:00Z"), Null, Val("bot")),
      Obj(Val("4"), Val("API Rate Limit Monitor"), Val(Tasks.MonitorText),
          Val("maintenance"), Val("todo"), Val("2026-02-07T08:00:00Z"), Null, Val("bot")),
      Obj(Val("5"), Val("Research LLM Caching"), Val(Tasks.CachingText),
          Val("research"), Val("todo"), Val("2026-02-07T09:30:00Z"), Null, Val("manual")) ]
  }

  predicate DistinctIds(ts: seq<Obj>) {
    forall i, j :: 0 <= i < j < |ts| ==> ts[i].id != ts[j].id
  }

  lemma SeedTasksWellFormed()
    ensures |SeedTasks()| == 5
    ensures DistinctIds(SeedTasks())
    ensures forall i :: 0 <= i < 5 ==> ObjConsistent(SeedTasks()[i]) && SeedTasks()[i].id.Val?
  {
  }

  /** `{ id, ...task }`: the generated id, unless the task brings its own. */
  function Spread(id: string, task: Obj): (t: Obj)
    ensures task.id == Undefined ==> t == task.(id := Val(id))
    ensures task.id != Undefined ==> t == task
  {
    if task.id == Undefined then task.(id := Val(id)) else task
  }

  /** `Object.assign(target, source)`: every property the source defines
      overwrites the target's. */
  function Assign(target: Obj, source: Obj): (r: Obj)
    ensures r.id == if source.id == Undefined then target.id else source.id
    ensures r.title == if source.title == Undefined then target.title else source.title
    ensures r.description == if source.description == Undefined then target.description else source.description
    ensures r.category == if source.category == Undefined then target.category else source.category
    ensures r.status == if source.status == Undefined then target.status else source.status
    ensures r.createdAt == if source.createdAt == Undefined then target.createdAt else source.createdAt
    ensures r.completedAt == if source.completedAt == Undefined then target.completedAt else source.completedAt
    ensures r.agent == if source.agent == Undefined then target.agent else source.agent
  {
    Obj(Pick(target.id, source.id), Pick(target.title, source.title),
        Pick(target.description, source.description), Pick(target.category, source.category),
        Pick(target.status, source.status), Pick(target.createdAt, source.createdAt),
        Pick(target.completedAt, source.completedAt), Pick(target.agent, source.agent))
  }

  function Pick(old_: Prop, new_: Prop): Prop {
    if new_ == Undefined then old_ else new_
  }

  /** Merging nothing changes nothing, and merging twice is merging once. */
  lemma AssignLaws(t: Obj, u: Obj)
    ensures Assign(t, EmptyObj) == t
    ensures Assign(Assign(t, u), u) == Assign(t, u)
  {
  }

  /** The updates that api/tasks/[id].js builds: a status always comes with a
      completedAt, a timestamp for 'done' and null otherwise, and no id. */
  predicate UpdateShape(u: Obj) {
    && u.id == Undefined
    && (u.status == Undefined ==> u.completedAt == Undefined)
    && (u.status != Undefined ==> u.status.Val? && (u.completedAt.Val? <==> u.status.value == "done")
                                  && !u.completedAt.Undefined?)
  }

  /** Such an update keeps a task's id and its completedAt/status invariant. */
  lemma AssignKeepsConsistent(t: Obj, u: Obj)
    requires ObjConsistent(t) && UpdateShape(u)
    ensures Assign(t, u).id == t.id
    ensures ObjConsistent(Assign(t, u))
  {
  }

  function HasId(id: string): Obj -> bool {
    (t: Obj) => t.id == Val(id)
  }

  /** The in-memory store: `_mem`, created from the seed list on first use. */
  class MemoryStore {
    var mem: Option<seq<Obj>>

    /** The list every operation sees through mem(). */
    function Tasks(): seq<Obj>
      reads this
    {
      if mem.Some? then mem.value else SeedTasks()
    }

    /** At module load `_mem` is null. */
    constructor ()
      ensures mem == None && Tasks() == SeedTasks()
    {
      mem := None;
    }

    /** mem(): seeds the list on first use. */
    method Mem() returns (list: seq<Obj>)
      modifies this
      ensures list == old(Tasks()) && mem == Some(list)
    {
      if mem.None? {
        mem := Some(SeedTasks());
      }
      list := mem.value;
    }

    /** listTasks: a copy of the list. */
    method ListTasks() returns (r: seq<Obj>)
      modifies this
      ensures r == old(Tasks()) && mem == Some(r)
    {
      r := Mem();
    }

    /** createTask: the new task goes in front; the others keep their order. */
    method CreateTask(task: Obj, freshId: string) returns (t: Obj)
      modifies this
      ensures t == Spread(freshId, task)
      ensures mem == Some([t] + old(Tasks()))
      ensures |Tasks()| == |old(Tasks())| + 1 && Tasks()[1..] == old(Tasks())
    {
      var list := Mem();
      t := Spread(freshId, task);
      mem := Some([t] + list);
    }

    /** updateTask: merges the updates into the first task with the id and
      returns a snapshot of it, or null when there is none. */
    method UpdateTask(id: string, updates: Obj) returns (r: Option<Obj>)
      modifies this
      ensures var i := FirstIndex(old(Tasks()), HasId(id));
        && (i.None? ==> r.None? && mem == Some(old(Tasks())))
        && (i.Some? ==>
              && r == Some(Assign(old(Tasks())[i.value], updates))
              && mem == Some(old(Tasks())[i.value := r.value]))
    {
      var list := Mem();
      var i := FirstIndex(list, HasId(id));
      if i.None? {
        r := None;
      } else {
        var merged := Assign(list[i.value], updates);
        mem := Some(list[i.value := merged]);
        r := Some(merged);
      }
    }

    /** deleteTask: removes and returns the first task with the id, or null. */
    method DeleteTask(id: string) returns (r: Option<Obj>)
      modifies this
      ensures var i := FirstIndex(old(Tasks()), HasId(id));
        && (i.None? ==> r.None? && mem == Some(old(Tasks())))
        && (i.Some? ==>
              && r == Some(old(Tasks())[i.value])
              && mem == Some(old(Tasks())[..i.value] + old(Tasks())[i.value + 1..]))
    {
      var list := Mem();
      var i := FirstIndex(list, HasId(id));
      if i.None? {
        r := None;
      } else {
        r := Some(list[i.value]);
        mem := Some(list[..i.value] + list[i.value + 1..]);
      }
    }
  }
}
