/** The views the dashboard derives from its loaded task list
    (public/script.js): the stat counters, the kanban columns, the drop rule,
    the weekly history and the recent-activity feed. */
module DashboardViews {
  import opened Seqs
  import opened IsoWeek

  /** A task as the dashboard holds it: the status is whatever string the API
      sent, and the timestamps are milliseconds since the epoch. */
  datatype ClientTask = ClientTask(
    id: string,
    title: string,
    status: string,
    createdAt: int,
    completedAt: Option<int>)

  /** The statuses that have a column, in column order. */
  const ColumnStatuses: seq<string> := ["todo", "in-progress", "done"]

  function HasStatus(status: string): ClientTask -> bool {
    (t: ClientTask) => t.status == status
  }

  function HasId(id: string): ClientTask -> bool {
    (t: ClientTask) => t.id == id
  }

  // ---- Stats ----

  datatype Stats = Stats(total: nat, todo: nat, inProgress: nat, done: nat)

  /** `tasks.filter(t => t.status === status).length`. */
  function Count(ts: seq<ClientTask>, status: string): (n: nat)
    ensures n <= |ts|
  {
    |Filter(ts, HasStatus(status))|
  }

  lemma CountSnoc(ts: seq<ClientTask>, t: ClientTask, status: string)
    ensures Count(ts + [t], status) == Count(ts, status) + if t.status == status then 1 else 0
  {
    FilterSnoc(ts, t, HasStatus(status));
  }

  /** renderStats: the list length and the exact-match count of each status. */
  function StatsOf(ts: seq<ClientTask>): (s: Stats)
    ensures s.total == |ts|
    ensures s.todo == Count(ts, "todo") && s.inProgress == Count(ts, "in-progress")
    ensures s.done == Count(ts, "done")
    ensures s.todo <= |ts| && s.inProgress <= |ts| && s.done <= |ts|
  {
    Stats(|ts|, Count(ts, "todo"), Count(ts, "in-progress"), Count(ts, "done"))
  }

  /** The number of tasks whose status has no column. */
  function Unlisted(ts: seq<ClientTask>): nat {
    if |ts| == 0 then 0
    else Unlisted(ts[..|ts| - 1]) + if ts[|ts| - 1].status in ColumnStatuses then 0 else 1
  }

  /** A status is exactly one of the three column statuses, or none of them. */
  lemma StatusCases(s: string)
    ensures (if s == "todo" then 1 else 0) + (if s == "in-progress" then 1 else 0)
      + (if s == "done" then 1 else 0) + (if s in ColumnStatuses then 0 else 1) == 1
  {
    assert "todo"[0] != "done"[0];
    assert |"todo"| != |"in-progress"| && |"done"| != |"in-progress"|;
  }

  /** Every task is counted once: under its status, or among those without a column. */
  lemma {:induction false} StatsSplit(ts: seq<ClientTask>)
    ensures var s := StatsOf(ts); s.todo + s.inProgress + s.done + Unlisted(ts) == s.total
  {
    if |ts| > 0 {
      var init, last := ts[..|ts| - 1], ts[|ts| - 1];
      assert ts == init + [last];
      StatsSplit(init);
      CountSnoc(init, last, "todo");
      CountSnoc(init, last, "in-progress");
      CountSnoc(init, last, "done");
      StatusCases(last.status);
    }
  }

  lemma {:induction false} NoneUnlisted(ts: seq<ClientTask>)
    ensures Unlisted(ts) == 0 <==> forall i :: 0 <= i < |ts| ==> ts[i].status in ColumnStatuses
  {
    if |ts| > 0 {
      var init := ts[..|ts| - 1];
      NoneUnlisted(init);
      assert forall i :: 0 <= i < |init| ==> init[i] == ts[i];
    }
  }

  /** The three counters never add up to more than the total, and add up to
      exactly the total when every task has one of the three statuses. */
  lemma StatsAddUp(ts: seq<ClientTask>)
    ensures var s := StatsOf(ts); s.todo + s.inProgress + s.done <= s.total
    ensures var s := StatsOf(ts);
      s.todo + s.inProgress + s.done == s.total <==> forall i :: 0 <= i < |ts| ==> ts[i].status in ColumnStatuses
  {
    StatsSplit(ts);
    NoneUnlisted(ts);
  }

  // ---- Kanban ----

  function CreatedKey(): ClientTask -> int {
    (t: ClientTask) => t.createdAt
  }

  /** One kanban column: the tasks of that status, newest createdAt first. */
  function Column(ts: seq<ClientTask>, status: string): (col: seq<ClientTask>)
    ensures IsDescending(col, CreatedKey())
  {
    var sorted := SortDescending(ts, CreatedKey());
    FilterKeepsDescending(sorted, HasStatus(status), CreatedKey());
    Filter(sorted, HasStatus(status))
  }

  /** A column holds every copy of each task of its status and nothing else. */
  lemma ColumnCount(ts: seq<ClientTask>, status: string, t: ClientTask)
    ensures multiset(Column(ts, status))[t] == if t.status == status then multiset(ts)[t] else 0
  {
    FilterMultiset(SortDescending(ts, CreatedKey()), HasStatus(status));
  }

  datatype Board = Board(todo: seq<ClientTask>, inProgress: seq<ClientTask>, done: seq<ClientTask>)

  /** renderKanban: each task card goes to the column of its status. */
  function Kanban(ts: seq<ClientTask>): (b: Board)
    ensures IsDescending(b.todo, CreatedKey()) && IsDescending(b.inProgress, CreatedKey())
    ensures IsDescending(b.done, CreatedKey())
  {
    Board(Column(ts, "todo"), Column(ts, "in-progress"), Column(ts, "done"))
  }

  /** Every task with a column status is on the board exactly once, in its own
      column; a task with any other status is on none. */
  lemma KanbanPartition(ts: seq<ClientTask>, t: ClientTask)
    ensures var b := Kanban(ts);
      multiset(b.todo)[t] + multiset(b.inProgress)[t] + multiset(b.done)[t]
        == if t.status in ColumnStatuses then multiset(ts)[t] else 0
    ensures t.status == "todo" ==> multiset(Kanban(ts).todo)[t] == multiset(ts)[t]
    ensures t.status == "in-progress" ==> multiset(Kanban(ts).inProgress)[t] == multiset(ts)[t]
    ensures t.status == "done" ==> multiset(Kanban(ts).done)[t] == multiset(ts)[t]
  {
    ColumnCount(ts, "todo", t);
    ColumnCount(ts, "in-progress", t);
    ColumnCount(ts, "done", t);
  }

  // ---- Drag and drop ----

  /** The PATCH a drop issues: the dragged task's id and the column status. */
  datatype StatusUpdate = StatusUpdate(id: string, status: string)

  /** The drop handler: an update only when a drag id is set, names a loaded
      task, and that task is not already in the target column. */
  function DropUpdate(dragId: Option<string>, ts: seq<ClientTask>, column: string): (u: Option<StatusUpdate>)
    ensures u.Some? <==>
      && dragId.Some? && dragId.value != ""
      && FirstIndex(ts, HasId(dragId.value)).Some?
      && ts[FirstIndex(ts, HasId(dragId.value)).value].status != column
    ensures u.Some? ==> u.value.id == dragId.value && u.value.status == column
  {
    if dragId.None? || dragId.value == "" then None
    else match FirstIndex(ts, HasId(dragId.value))
      case None => None
      case Some(i) => if ts[i].status != column then Some(StatusUpdate(dragId.value, column)) else None
  }

  lemma {:induction false} FirstIndexSameIds(ts: seq<ClientTask>, us: seq<ClientTask>, id: string)
    requires |ts| == |us|
    requires forall i :: 0 <= i < |ts| ==> ts[i].id == us[i].id
    ensures FirstIndex(ts, HasId(id)) == FirstIndex(us, HasId(id))
  {
    if |ts| > 0 {
      FirstIndexSameIds(ts[1..], us[1..], id);
    }
  }

  /** Once the update has been applied to the loaded list, dropping the same
      task on the same column again issues nothing. */
  lemma DropSettles(dragId: Option<string>, ts: seq<ClientTask>, column: string)
    requires DropUpdate(dragId, ts, column).Some?
    ensures var i := FirstIndex(ts, HasId(dragId.value)).value;
      DropUpdate(dragId, ts[i := ts[i].(status := column)], column).None?
  {
    var i := FirstIndex(ts, HasId(dragId.value)).value;
    FirstIndexSameIds(ts, ts[i := ts[i].(status := column)], dragId.value);
  }

  // ---- Weekly history ----

  /** `task.completedAt || task.createdAt`: the instant a task is filed under. */
  function FiledAt(t: ClientTask): int {
    if t.completedAt.Some? then t.completedAt.value else t.createdAt
  }

  /** The ISO week of that instant's local calendar day. */
  function WeekOf(t: ClientTask, offsetMs: int): (w: WeekDate)
    ensures InIsoWeek(LocalDay(FiledAt(t), offsetMs), w)
    ensures 1 <= w.week <= 53
  {
    IsoWeekCorrect(LocalDay(FiledAt(t), offsetMs));
    GetIsoWeek(LocalDay(FiledAt(t), offsetMs))
  }

  /** The key renderWeeks files each task under, for a given local offset. */
  function WeekFn(offsetMs: int): ClientTask -> WeekDate {
    (t: ClientTask) => WeekOf(t, offsetMs)
  }

  function InWeek(k: WeekDate, weekOf: ClientTask -> WeekDate): ClientTask -> bool {
    (t: ClientTask) => weekOf(t) == k
  }

  datatype WeekGroup = WeekGroup(year: int, week: int, tasks: seq<ClientTask>)

  function KeyOf(g: WeekGroup): WeekDate {
    WeekDate(g.year, g.week)
  }

  /** The keys of a list of groups, in its order. */
  function Keys(groups: seq<WeekGroup>): (ks: seq<WeekDate>)
    ensures |ks| == |groups|
    ensures forall j :: 0 <= j < |groups| ==> ks[j] == KeyOf(groups[j])
  {
    seq(|groups|, j requires 0 <= j < |groups| => KeyOf(groups[j]))
  }

  function Size(): WeekGroup -> nat {
    (g: WeekGroup) => |g.tasks|
  }

  /** The comparator of renderWeeks as a number: year first, then week. */
  function GroupKey(): WeekGroup -> int {
    (g: WeekGroup) => g.year * 100 + g.week
  }

  /** a comes strictly before b in reverse chronological order. */
  predicate Later(a: WeekGroup, b: WeekGroup) {
    a.year > b.year || (a.year == b.year && a.week > b.week)
  }

  /** `Object.values(groups)`: the groups in the order their keys were added. */
  function Values(order: seq<WeekDate>, groups: map<WeekDate, seq<ClientTask>>): (gs: seq<WeekGroup>)
    requires forall k :: k in order ==> k in groups
    ensures |gs| == |order|
    ensures forall j :: 0 <= j < |order| ==> gs[j] == WeekGroup(order[j].year, order[j].week, groups[order[j]])
  {
    if |order| == 0 then []
    else
      var k := order[|order| - 1];
      Values(order[..|order| - 1], groups) + [WeekGroup(k.year, k.week, groups[k])]
  }

  lemma {:induction false} ValuesFrame(order: seq<WeekDate>, m: map<WeekDate, seq<ClientTask>>,
                                       m': map<WeekDate, seq<ClientTask>>)
    requires forall k :: k in order ==> k in m && k in m' && m[k] == m'[k]
    ensures Values(order, m) == Values(order, m')
  {
  }

  /** Pushing one task onto the group of a key that occurs once adds one to the total size. */
  lemma {:induction false} PushAddsOne(order: seq<WeekDate>, m: map<WeekDate, seq<ClientTask>>,
                                       k: WeekDate, t: ClientTask)
    requires forall x :: x in order ==> x in m
    requires Distinct(order) && k in order
    ensures SumBy(Values(order, m[k := m[k] + [t]]), Size())
         == SumBy(Values(order, m), Size()) + 1
  {
    var m' := m[k := m[k] + [t]];
    var init, last := order[..|order| - 1], order[|order| - 1];
    assert order == init + [last];
    if last == k {
      ValuesFrame(init, m, m');
    } else {
      PushAddsOne(init, m, k, t);
    }
  }

  /** Opening a new group with one task adds one to the total size. */
  lemma AddKeyAddsOne(order: seq<WeekDate>, m: map<WeekDate, seq<ClientTask>>, k: WeekDate, t: ClientTask)
    requires forall x :: x in order ==> x in m
    requires k !in m
    ensures SumBy(Values(order + [k], m[k := [t]]), Size()) == SumBy(Values(order, m), Size()) + 1
  {
    var m' := m[k := [t]];
    ValuesFrame(order, m, m');
    assert (order + [k])[..|order|] == order;
    var vs := Values(order, m');
    var g := WeekGroup(k.year, k.week, [t]);
    assert Values(order + [k], m') == vs + [g];
    assert (vs + [g])[..|vs|] == vs;
  }

  /** The dictionary's keys are the insertion order, without repeats, and
      every key is a week number from 1 to 53. */
  ghost predicate KeysInOrder(order: seq<WeekDate>, byKey: map<WeekDate, seq<ClientTask>>) {
    && (forall k :: k in byKey <==> k in order)
    && Distinct(order)
    && (forall k :: k in byKey ==> 1 <= k.week <= 53)
  }

  /** Each group is non-empty and holds the prefix's tasks of its week, in order. */
  ghost predicate GroupsAreWeeks(prefix: seq<ClientTask>, weekOf: ClientTask -> WeekDate,
                                 byKey: map<WeekDate, seq<ClientTask>>) {
    forall k :: k in byKey ==> byKey[k] != [] && byKey[k] == Filter(prefix, InWeek(k, weekOf))
  }

  /** Every task of the prefix has a group. */
  ghost predicate Covers(prefix: seq<ClientTask>, weekOf: ClientTask -> WeekDate,
                         byKey: map<WeekDate, seq<ClientTask>>) {
    forall j :: 0 <= j < |prefix| ==> weekOf(prefix[j]) in byKey
  }

  /** The state of renderWeeks' dictionary after a prefix of the tasks: its
      keys in insertion order without repeats, each group the prefix's tasks
      of that week, every task of the prefix in a group, and as many tasks in
      the groups as in the prefix. */
  ghost predicate Grouped(prefix: seq<ClientTask>, weekOf: ClientTask -> WeekDate,
                          order: seq<WeekDate>, byKey: map<WeekDate, seq<ClientTask>>)
  {
    && KeysInOrder(order, byKey)
    && GroupsAreWeeks(prefix, weekOf, byKey)
    && Covers(prefix, weekOf, byKey)
    && SumBy(Values(order, byKey), Size()) == |prefix|
  }

  lemma StepKeys(order: seq<WeekDate>, byKey: map<WeekDate, seq<ClientTask>>, k: WeekDate,
                 group: seq<ClientTask>, order': seq<WeekDate>, byKey': map<WeekDate, seq<ClientTask>>)
    requires KeysInOrder(order, byKey)
    requires 1 <= k.week <= 53
    requires order' == (if k in byKey then order else order + [k])
    requires byKey' == byKey[k := group]
    ensures KeysInOrder(order', byKey')
  {
    if k !in byKey {
      forall a, b | 0 <= a < b < |order'| ensures order'[a] != order'[b] {
        if b == |order| {
          assert order[a] in order;
        } else {
          assert order'[a] == order[a] && order'[b] == order[b];
        }
      }
    }
  }

  lemma StepSum(prefix: seq<ClientTask>, t: ClientTask, order: seq<WeekDate>,
                byKey: map<WeekDate, seq<ClientTask>>, k: WeekDate,
                order': seq<WeekDate>, byKey': map<WeekDate, seq<ClientTask>>)
    requires KeysInOrder(order, byKey)
    requires SumBy(Values(order, byKey), Size()) == |prefix|
    requires order' == (if k in byKey then order else order + [k])
    requires byKey' == byKey[k := (if k in byKey then byKey[k] else []) + [t]]
    ensures SumBy(Values(order', byKey'), Size()) == |prefix| + 1
  {
    if k in byKey {
      PushAddsOne(order, byKey, k, t);
    } else {
      assert [] + [t] == [t];
      AddKeyAddsOne(order, byKey, k, t);
    }
  }

  lemma StepGroups(prefix: seq<ClientTask>, t: ClientTask, prefix': seq<ClientTask>, weekOf: ClientTask -> WeekDate,
                   byKey: map<WeekDate, seq<ClientTask>>, byKey': map<WeekDate, seq<ClientTask>>)
    requires GroupsAreWeeks(prefix, weekOf, byKey) && Covers(prefix, weekOf, byKey)
    requires prefix' == prefix + [t]
    requires var k := weekOf(t); byKey' == byKey[k := (if k in byKey then byKey[k] else []) + [t]]
    ensures GroupsAreWeeks(prefix', weekOf, byKey')
  {
    var k := weekOf(t);
    forall x | x in byKey'
      ensures byKey'[x] != [] && byKey'[x] == Filter(prefix', InWeek(x, weekOf))
    {
      FilterSnoc(prefix, t, InWeek(x, weekOf));
      if x == k {
        if k !in byKey {
          FilterNone(prefix, InWeek(k, weekOf));
        }
      } else {
        assert !InWeek(x, weekOf)(t);
      }
    }
  }

  lemma StepCovers(prefix: seq<ClientTask>, t: ClientTask, prefix': seq<ClientTask>, weekOf: ClientTask -> WeekDate,
                   byKey: map<WeekDate, seq<ClientTask>>, byKey': map<WeekDate, seq<ClientTask>>)
    requires Covers(prefix, weekOf, byKey)
    requires prefix' == prefix + [t]
    requires forall x :: x in byKey ==> x in byKey'
    requires weekOf(t) in byKey'
    ensures Covers(prefix', weekOf, byKey')
  {
    forall j | 0 <= j < |prefix'| ensures weekOf(prefix'[j]) in byKey' {
      if j < |prefix| {
        assert prefix'[j] == prefix[j];
      }
    }
  }

  /** Opening an empty group and pushing onto it is pushing onto the group
      or onto an empty one. */
  lemma OpenThenPush(byKey: map<WeekDate, seq<ClientTask>>, k: WeekDate, t: ClientTask)
    ensures var opened_ := if k in byKey then byKey else byKey[k := []];
      opened_[k := opened_[k] + [t]] == byKey[k := (if k in byKey then byKey[k] else []) + [t]]
  {
  }

  /** Filing one more task keeps the dictionary in that state. The new state
      is the loop body of renderWeeks as written: open the group if the key
      is new, then push the task onto it. */
  lemma GroupStep(tasks: seq<ClientTask>, i: nat, weekOf: ClientTask -> WeekDate,
                  order: seq<WeekDate>, byKey: map<WeekDate, seq<ClientTask>>,
                  order': seq<WeekDate>, byKey': map<WeekDate, seq<ClientTask>>)
    requires i < |tasks| && Grouped(tasks[..i], weekOf, order, byKey)
    requires 1 <= weekOf(tasks[i]).week <= 53
    requires var k := weekOf(tasks[i]);
      var opened_ := if k in byKey then byKey else byKey[k := []];
      && order' == (if k in byKey then order else order + [k])
      && byKey' == opened_[k := opened_[k] + [tasks[i]]]
    ensures Grouped(tasks[..i + 1], weekOf, order', byKey')
  {
    var t, k := tasks[i], weekOf(tasks[i]);
    var prefix, prefix' := tasks[..i], tasks[..i + 1];
    OpenThenPush(byKey, k, t);
    TakeSnoc(tasks, i);
    StepKeys(order, byKey, k, byKey'[k], order', byKey');
    StepSum(prefix, t, order, byKey, k, order', byKey');
    StepGroups(prefix, t, prefix', weekOf, byKey, byKey');
    StepCovers(prefix, t, prefix', weekOf, byKey, byKey');
  }

  /** The groups of a finished pass are Object.values of the dictionary, which
      holds every key once, each an ISO week. */
  lemma ValuesDistinct(order: seq<WeekDate>, byKey: map<WeekDate, seq<ClientTask>>)
    requires KeysInOrder(order, byKey)
    ensures forall a, b :: (0 <= a < |order| && 0 <= b < |order| &&
      KeyOf(Values(order, byKey)[a]) == KeyOf(Values(order, byKey)[b])) ==> a == b
    ensures forall a :: 0 <= a < |order| ==> 1 <= Values(order, byKey)[a].week <= 53
  {
    forall a | 0 <= a < |order| ensures 1 <= Values(order, byKey)[a].week <= 53 {
      assert order[a] in byKey;
    }
  }

  /** Sorting groups with distinct keys and weeks 1 to 53 by GroupKey puts
      them in strictly reverse chronological order. */
  lemma SortedIsLater(values: seq<WeekGroup>, groups: seq<WeekGroup>)
    requires forall a, b :: 0 <= a < |values| && 0 <= b < |values| && KeyOf(values[a]) == KeyOf(values[b]) ==> a == b
    requires forall a :: 0 <= a < |values| ==> 1 <= values[a].week <= 53
    requires multiset(values) == multiset(groups) && IsDescending(groups, GroupKey())
    ensures forall i, j :: 0 <= i < j < |groups| ==> Later(groups[i], groups[j])
  {
    assert Distinct(values);
    PermKeepsDistinct(values, groups);
    forall i, j | 0 <= i < j < |groups| ensures Later(groups[i], groups[j]) {
      assert groups[i] in multiset(values) && groups[j] in multiset(values);
      var a :| 0 <= a < |values| && values[a] == groups[i];
      var b :| 0 <= b < |values| && values[b] == groups[j];
      assert GroupKey()(groups[i]) >= GroupKey()(groups[j]);
    }
  }

  /** Sorting keeps each group what it was in the dictionary. */
  lemma SortedMembers(tasks: seq<ClientTask>, weekOf: ClientTask -> WeekDate,
                      order: seq<WeekDate>, byKey: map<WeekDate, seq<ClientTask>>, groups: seq<WeekGroup>)
    requires KeysInOrder(order, byKey) && GroupsAreWeeks(tasks, weekOf, byKey)
    requires multiset(groups) == multiset(Values(order, byKey))
    ensures forall g :: g in groups ==>
      g.tasks != [] && g.tasks == Filter(tasks, InWeek(KeyOf(g), weekOf))
  {
    var values := Values(order, byKey);
    forall g | g in groups
      ensures g.tasks != [] && g.tasks == Filter(tasks, InWeek(KeyOf(g), weekOf))
    {
      assert g in multiset(values);
      var a :| 0 <= a < |values| && values[a] == g;
      assert KeyOf(g) == order[a];
    }
  }

  /** Sorting loses no group, so every task still has one. */
  lemma SortedCovers(tasks: seq<ClientTask>, weekOf: ClientTask -> WeekDate,
                     order: seq<WeekDate>, byKey: map<WeekDate, seq<ClientTask>>, groups: seq<WeekGroup>)
    requires KeysInOrder(order, byKey) && Covers(tasks, weekOf, byKey)
    requires multiset(groups) == multiset(Values(order, byKey))
    ensures forall i :: 0 <= i < |tasks| ==> weekOf(tasks[i]) in Keys(groups)
  {
    forall i | 0 <= i < |tasks| ensures weekOf(tasks[i]) in Keys(groups) {
      KeyKept(order, byKey, groups, weekOf(tasks[i]));
    }
  }

  lemma KeyKept(order: seq<WeekDate>, byKey: map<WeekDate, seq<ClientTask>>, groups: seq<WeekGroup>, k: WeekDate)
    requires KeysInOrder(order, byKey) && k in byKey
    requires multiset(groups) == multiset(Values(order, byKey))
    ensures k in Keys(groups)
  {
    var values := Values(order, byKey);
    var a :| 0 <= a < |order| && order[a] == k;
    assert values[a] in multiset(groups);
    var j :| 0 <= j < |groups| && groups[j] == values[a];
    assert Keys(groups)[j] == k;
  }

  /** The sorted groups of a finished pass are in strictly reverse
      chronological order. */
  lemma SortedLater(order: seq<WeekDate>, byKey: map<WeekDate, seq<ClientTask>>, groups: seq<WeekGroup>)
    requires KeysInOrder(order, byKey)
    requires groups == SortDescending(Values(order, byKey), GroupKey())
    ensures forall i, j :: 0 <= i < j < |groups| ==> Later(groups[i], groups[j])
  {
    ValuesDistinct(order, byKey);
    SortedIsLater(Values(order, byKey), groups);
  }

  /** renderWeeks' grouping: one pass over the tasks fills a dictionary keyed
      by ISO week, creating a group the first time its key is seen; the groups
      are then sorted by year, then week, newest first. */
  method GroupByWeek(tasks: seq<ClientTask>, offsetMs: int) returns (groups: seq<WeekGroup>)
    ensures forall g :: g in groups ==>
      g.tasks != [] && g.tasks == Filter(tasks, InWeek(KeyOf(g), WeekFn(offsetMs)))
    ensures forall i :: 0 <= i < |tasks| ==> WeekOf(tasks[i], offsetMs) in Keys(groups)
    ensures forall i, j :: 0 <= i < j < |groups| ==> Later(groups[i], groups[j])
    ensures SumBy(groups, Size()) == |tasks|
  {
    groups := FileByWeek(tasks, WeekFn(offsetMs));
  }

  /** The same pass for any key function that yields ISO weeks; the key of a
      task is the only thing the pass asks of getISOWeek. */
  method FileByWeek(tasks: seq<ClientTask>, weekOf: ClientTask -> WeekDate) returns (groups: seq<WeekGroup>)
    requires forall t :: 1 <= weekOf(t).week <= 53
    ensures forall g :: g in groups ==>
      g.tasks != [] && g.tasks == Filter(tasks, InWeek(KeyOf(g), weekOf))
    ensures forall i :: 0 <= i < |tasks| ==> weekOf(tasks[i]) in Keys(groups)
    ensures forall i, j :: 0 <= i < j < |groups| ==> Later(groups[i], groups[j])
    ensures SumBy(groups, Size()) == |tasks|
  {
    var order: seq<WeekDate> := [];
    var byKey: map<WeekDate, seq<ClientTask>> := map[];
    var i := 0;
    while i < |tasks|
      invariant 0 <= i <= |tasks|
      invariant Grouped(tasks[..i], weekOf, order, byKey)
    {
      var t := tasks[i];
      var k := weekOf(t);
      ghost var order0, byKey0 := order, byKey;
      if k !in byKey {
        byKey := byKey[k := []];
        order := order + [k];
      }
      byKey := byKey[k := byKey[k] + [t]];
      GroupStep(tasks, i, weekOf, order0, byKey0, order, byKey);
      i := i + 1;
    }
    assert tasks[..i] == tasks;
    var values := Values(order, byKey);
    groups := SortDescending(values, GroupKey());
    SumBySort(values, GroupKey(), Size());
    SortedMembers(tasks, weekOf, order, byKey, groups);
    SortedCovers(tasks, weekOf, order, byKey, groups);
    SortedLater(order, byKey, groups);
  }

  /** The "No history yet" state shows exactly when there are no tasks. */
  lemma NoHistoryExactlyWhenEmpty(tasks: seq<ClientTask>, weekOf: ClientTask -> WeekDate, groups: seq<WeekGroup>)
    requires forall g :: g in groups ==> g.tasks != [] && g.tasks == Filter(tasks, InWeek(KeyOf(g), weekOf))
    requires forall i :: 0 <= i < |tasks| ==> weekOf(tasks[i]) in Keys(groups)
    ensures groups == [] <==> tasks == []
  {
    if tasks != [] {
      assert weekOf(tasks[0]) in Keys(groups);
    }
    if groups != [] {
      assert groups[0] in groups;
    }
  }

  /** Each task is in the one group of its week and in no other. */
  lemma OneGroupPerTask(tasks: seq<ClientTask>, weekOf: ClientTask -> WeekDate, groups: seq<WeekGroup>, i: nat)
    requires forall g :: g in groups ==> g.tasks == Filter(tasks, InWeek(KeyOf(g), weekOf))
    requires forall a, b :: 0 <= a < b < |groups| ==> Later(groups[a], groups[b])
    requires i < |tasks|
    ensures forall a :: 0 <= a < |groups| ==>
      (tasks[i] in groups[a].tasks <==> KeyOf(groups[a]) == weekOf(tasks[i]))
    ensures forall a, b :: (0 <= a < |groups| && 0 <= b < |groups| &&
      tasks[i] in groups[a].tasks && tasks[i] in groups[b].tasks) ==> a == b
  {
    forall a | 0 <= a < |groups|
      ensures tasks[i] in groups[a].tasks <==> KeyOf(groups[a]) == weekOf(tasks[i])
    {
      assert groups[a] in groups;
      FilterMembers(tasks, InWeek(KeyOf(groups[a]), weekOf), tasks[i]);
    }
  }

  /** One row of the weekly sidebar: its badge and whether it starts expanded. */
  datatype WeekRow = WeekRow(year: int, week: int, done: nat, total: nat, expanded: bool)

  /** The badge counts done tasks over all tasks; only the first group starts expanded. */
  function WeekRows(groups: seq<WeekGroup>): (rows: seq<WeekRow>)
    ensures |rows| == |groups|
    ensures forall i :: 0 <= i < |rows| ==>
      && rows[i].year == groups[i].year && rows[i].week == groups[i].week
      && rows[i].done == Count(groups[i].tasks, "done")
      && rows[i].done <= rows[i].total == |groups[i].tasks|
      && (rows[i].expanded <==> i == 0)
  {
    seq(|groups|, i requires 0 <= i < |groups| =>
      WeekRow(groups[i].year, groups[i].week, |Filter(groups[i].tasks, HasStatus("done"))|,
              |groups[i].tasks|, i == 0))
  }

  function DoneInWeek(k: WeekDate, weekOf: ClientTask -> WeekDate): ClientTask -> bool {
    (t: ClientTask) => weekOf(t) == k && t.status == "done"
  }

  /** For groups filed by week, a badge's done count is the number of done
      tasks of the whole list that fall in that row's week. */
  lemma WeekBadgeCountsDone(tasks: seq<ClientTask>, weekOf: ClientTask -> WeekDate, groups: seq<WeekGroup>, i: nat)
    requires forall g :: g in groups ==> g.tasks == Filter(tasks, InWeek(KeyOf(g), weekOf))
    requires i < |groups|
    ensures WeekRows(groups)[i].done == |Filter(tasks, DoneInWeek(KeyOf(groups[i]), weekOf))|
    ensures WeekRows(groups)[i].total == |Filter(tasks, InWeek(KeyOf(groups[i]), weekOf))|
  {
    var k := KeyOf(groups[i]);
    assert groups[i] in groups;
    FilterFilter(tasks, InWeek(k, weekOf), HasStatus("done"), DoneInWeek(k, weekOf));
  }

  // ---- Recent activity ----

  const ActivityLimit: nat := 8

  /** `t.status === 'done' && t.completedAt`. */
  function IsCompletion(): ClientTask -> bool {
    (t: ClientTask) => t.status == "done" && t.completedAt.Some?
  }

  function CompletedKey(): ClientTask -> int {
    (t: ClientTask) => t.completedAt.GetOr(0)
  }

  /** renderActivity: done tasks with a completion time, newest first, at most eight. */
  function Activity(ts: seq<ClientTask>): (r: seq<ClientTask>)
    ensures |r| <= ActivityLimit
    ensures forall t :: t in r ==> t in ts && t.status == "done" && t.completedAt.Some?
    ensures IsDescending(r, CompletedKey())
  {
    var sorted := SortDescending(Filter(ts, IsCompletion()), CompletedKey());
    var r := Take(sorted, ActivityLimit);
    forall t | t in r ensures t in ts && IsCompletion()(t) {
      assert t in multiset(sorted);
      FilterMembers(ts, IsCompletion(), t);
    }
    r
  }

  /** The feed is a top eight: it shows all completions when there are at
      most eight, otherwise eight of them, and every completion left out is no
      newer than any shown. */
  lemma ActivityIsNewest(ts: seq<ClientTask>)
    ensures var all := Filter(ts, IsCompletion()); var r := Activity(ts);
      && |r| == (if |all| <= ActivityLimit then |all| else ActivityLimit)
      && multiset(r) <= multiset(all)
      && forall x, y :: y in r && multiset(all)[x] > multiset(r)[x] ==>
           CompletedKey()(x) <= CompletedKey()(y)
  {
    var sorted := SortDescending(Filter(ts, IsCompletion()), CompletedKey());
    assert Activity(ts) == Take(sorted, ActivityLimit);
    TakeKeepsLargest(sorted, ActivityLimit, CompletedKey());
  }
}
