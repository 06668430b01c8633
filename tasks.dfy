/** The task entity and the request-body normalisation that both CRUD
    backends apply on creation (netlify/functions/tasks.js and
    api/tasks/index.js spell out the same rules). */
module Tasks {
  import opened Seqs
  import opened JsStrings

  datatype Category = Development | Automation | Security | Research | Content | Maintenance
  datatype Status = Todo | InProgress | Done
  datatype Agent = Bot | Manual

  /** VALID_CATEGORIES and VALID_STATUSES, in their source order. */
  const CategoryNames: seq<string> :=
    ["development", "automation", "security", "research", "content", "maintenance"]
  const StatusNames: seq<string> := ["todo", "in-progress", "done"]

  function CategoryName(c: Category): string {
    match c
    case Development => "development"
    case Automation => "automation"
    case Security => "security"
    case Research => "research"
    case Content => "content"
    case Maintenance => "maintenance"
  }

  function StatusName(s: Status): string {
    match s
    case Todo => "todo"
    case InProgress => "in-progress"
    case Done => "done"
  }

  function AgentName(a: Agent): string {
    match a
    case Bot => "bot"
    case Manual => "manual"
  }

  /** The category a wire string names, if it is one of VALID_CATEGORIES. */
  function ParseCategory(s: string): (r: Option<Category>)
    ensures r.Some? <==> s in CategoryNames
    ensures r.Some? ==> CategoryName(r.value) == s
  {
    if s == "development" then Some(Development)
    else if s == "automation" then Some(Automation)
    else if s == "security" then Some(Security)
    else if s == "research" then Some(Research)
    else if s == "content" then Some(Content)
    else if s == "maintenance" then Some(Maintenance)
    else None
  }

  /** The status a wire string names, if it is one of VALID_STATUSES. */
  function ParseStatus(s: string): (r: Option<Status>)
    ensures r.Some? <==> s in StatusNames
    ensures r.Some? ==> StatusName(r.value) == s
  {
    if s == "todo" then Some(Todo)
    else if s == "in-progress" then Some(InProgress)
    else if s == "done" then Some(Done)
    else None
  }

  lemma NamesParseBack(c: Category, s: Status)
    ensures ParseCategory(CategoryName(c)) == Some(c)
    ensures ParseStatus(StatusName(s)) == Some(s)
  {
  }

  /** The descriptions of the seed tasks, which both seed lists share. */
  const AuditText := "Daily automated security check of all repositories"
  const DashboardText := "Create and deploy the ClawdBot task dashboard"
  const PipelineText := "Configure automated testing and deployment workflows"
  const MonitorText := "Implement monitoring for external API usage and costs"
  const CachingText := "Evaluate caching strategies to reduce API costs"

  /** A stored task. Timestamps are the ISO 8601 strings the server writes. */
  datatype Task = Task(
    id: string,
    title: string,
    description: string,
    category: Category,
    status: Status,
    createdAt: string,
    completedAt: Option<string>,
    agent: Agent)

  /** The invariant of the task set: completedAt is set exactly when the task is done. */
  predicate Consistent(t: Task) {
    t.completedAt.Some? <==> t.status == Done
  }

  predicate AllConsistent(ts: seq<Task>) {
    forall i :: 0 <= i < |ts| ==> Consistent(ts[i])
  }

  predicate DistinctIds(ts: seq<Task>) {
    forall i, j :: 0 <= i < j < |ts| ==> ts[i].id != ts[j].id
  }

  /** A JavaScript value found in a parsed JSON request body. Numbers, objects
      and arrays are Other: what String() makes of them and whether they are
      truthy. */
  datatype JsVal = Undefined | Null | Bool(b: bool) | Str(s: string) | Other(shown: string, truthy: bool)

  predicate Truthy(v: JsVal) {
    match v
    case Undefined => false
    case Null => false
    case Bool(b) => b
    case Str(s) => s != ""
    case Other(_, t) => t
  }

  /** String(v). */
  function ToStr(v: JsVal): string {
    match v
    case Undefined => "undefined"
    case Null => "null"
    case Bool(b) => if b then "true" else "false"
    case Str(s) => s
    case Other(shown, _) => shown
  }

  /** The properties of a request body that the handlers read. */
  datatype Body = Body(title: JsVal, description: JsVal, category: JsVal, status: JsVal, agent: JsVal)

  const EmptyBody := Body(Undefined, Undefined, Undefined, Undefined, Undefined)

  /** A request body after JSON parsing: an object (a JSON primitive other than
      null reads as an object without properties), the value null, or text that
      does not parse. */
  datatype Payload = Object(body: Body) | NullValue | Malformed

  /** The title passes `!body.title || typeof body.title !== 'string' || !body.title.trim()`. */
  predicate TitleValid(v: JsVal) {
    v.Str? && Trim(v.s) != ""
  }

  /** A title is accepted exactly when it is a string with a character that is not white space. */
  lemma TitleValidMeans(v: JsVal)
    ensures TitleValid(v) <==> v.Str? && exists i :: 0 <= i < |v.s| && !IsSpace(v.s[i])
  {
  }

  function NormCategory(v: JsVal): (c: Category)
    ensures v.Str? && v.s in CategoryNames ==> CategoryName(c) == v.s
    ensures !(v.Str? && v.s in CategoryNames) ==> c == Development
  {
    if v.Str? then ParseCategory(v.s).GetOr(Development) else Development
  }

  function NormStatus(v: JsVal): (s: Status)
    ensures v.Str? && v.s in StatusNames ==> StatusName(s) == v.s
    ensures !(v.Str? && v.s in StatusNames) ==> s == Todo
  {
    if v.Str? then ParseStatus(v.s).GetOr(Todo) else Todo
  }

  function NormAgent(v: JsVal): (a: Agent)
    ensures a == Bot <==> v == Str("bot")
  {
    if v == Str("bot") then Bot else Manual
  }

  /** `(body.description || '').trim()`: None when it throws, because a truthy
      value that is not a string has no trim method. */
  function NormDescription(v: JsVal): (r: Option<string>)
    ensures r.None? <==> Truthy(v) && !v.Str?
    ensures r.Some? && v.Str? ==> r.value == Trim(v.s)
    ensures r.Some? && !v.Str? ==> r.value == ""
  {
    if !Truthy(v) then Some("")
    else if v.Str? then Some(Trim(v.s))
    else None
  }

  /** A task as created, before the store gives it an id. */
  datatype Draft = Draft(
    title: string,
    description: string,
    category: Category,
    status: Status,
    createdAt: string,
    completedAt: Option<string>,
    agent: Agent)

  function WithId(d: Draft, id: string): Task {
    Task(id, d.title, d.description, d.category, d.status, d.createdAt, d.completedAt, d.agent)
  }

  datatype Rejection = TitleRequired | Thrown

  datatype Creation = Accepted(draft: Draft) | Rejected(reason: Rejection)

  /** The validation and normalisation of a create request. */
  function NormaliseDraft(body: Body, now: string): (r: Creation)
    ensures r == Rejected(TitleRequired) <==> !TitleValid(body.title)
    ensures r == Rejected(Thrown) <==>
      TitleValid(body.title) && Truthy(body.description) && !body.description.Str?
    ensures r.Accepted? ==>
      && r.draft.title == Trim(body.title.s) && r.draft.title != []
      && Some(r.draft.description) == NormDescription(body.description)
      && r.draft.category == NormCategory(body.category)
      && r.draft.status == NormStatus(body.status)
      && r.draft.agent == NormAgent(body.agent)
      && r.draft.createdAt == now
      && r.draft.completedAt == (if r.draft.status == Done then Some(now) else None)
  {
    if !TitleValid(body.title) then Rejected(TitleRequired)
    else
      var status := NormStatus(body.status);
      match NormDescription(body.description)
      case None => Rejected(Thrown)
      case Some(description) =>
        Accepted(Draft(
          Trim(body.title.s),
          description,
          NormCategory(body.category),
          status,
          now,
          if status == Done then Some(now) else None,
          NormAgent(body.agent)))
  }

  /** netlify/functions/tasks.js decides completedAt from the raw
      `body.status === 'done'`, api/tasks/index.js from the normalised status:
      the two tests agree. */
  lemma DoneTestsAgree(v: JsVal)
    ensures NormStatus(v) == Done <==> v == Str("done")
  {
  }

  /** A created task satisfies the completedAt/status invariant. */
  lemma CreatedIsConsistent(body: Body, now: string, id: string)
    requires NormaliseDraft(body, now).Accepted?
    ensures Consistent(WithId(NormaliseDraft(body, now).draft, id))
  {
  }

  /** Creating with only a title gives the defaults. */
  lemma TitleOnlyDefaults(title: string, now: string)
    requires Trim(title) != ""
    ensures var r := NormaliseDraft(EmptyBody.(title := Str(title)), now);
      && r.Accepted?
      && r.draft.category == Development && r.draft.status == Todo
      && r.draft.agent == Manual && r.draft.completedAt == None
      && r.draft.description == ""
  {
  }
}
