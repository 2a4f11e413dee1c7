/** The task endpoints (apps/api/app/routers/tasks.py) over the in-memory
    registry: listing, one task's status, removal and statistics. An
    `HTTPException` is a `HttpError` response. */
module TaskRoutes {
  import opened Wrappers
  import TaskRegistry

  /** The `TaskStatus` enumeration of the response model. */
  datatype TaskStatus = Pending | Started | Success | Failure | Retry

  function Value(s: TaskStatus): string
  {
    match s
    case Pending => TaskRegistry.Pending
    case Started => TaskRegistry.Started
    case Success => TaskRegistry.Succeeded
    case Failure => TaskRegistry.Failed
    case Retry => TaskRegistry.Retry
  }

  /** `TaskStatus(v)`: the member whose value is `v`, if any. */
  function Parse(v: string): (r: Option<TaskStatus>)
    ensures r.Some? ==> Value(r.value) == v
  {
    if v == "pending" then Some(Pending)
    else if v == "started" then Some(Started)
    else if v == "success" then Some(TaskStatus.Success)
    else if v == "failure" then Some(Failure)
    else if v == "retry" then Some(Retry)
    else None
  }

  /** Every member is found again from its value. */
  lemma ParseValue(s: TaskStatus)
    ensures Parse(Value(s)) == Some(s)
  {
  }

  /** A response, or the `HTTPException` raised instead. */
  datatype Response<T> = Answered(value: T) | HttpError(status: nat, detail: string)

  /** `TaskStatusResponse`. */
  datatype TaskView = TaskView(
    taskId: string, status: TaskStatus, message: string, progress: Option<int>,
    repoId: Option<string>, result: Option<TaskRegistry.FinalResult>, error: Option<string>)

  /** Building a `TaskStatusResponse` from a record: the status must be a
      member of `TaskStatus` (`ValueError` otherwise) and the progress, when
      present, must lie in 0..100 (a validation error otherwise). */
  function ToView(taskId: string, rec: TaskRegistry.TaskRecord): (r: Result<TaskView>)
    ensures r.Ok? <==> Parse(rec.status).Some? && (rec.progress.Some? ==> 0 <= rec.progress.value <= 100)
    ensures r.Ok? ==> && r.value.taskId == taskId && Value(r.value.status) == rec.status
                      && r.value.message == rec.message && r.value.progress == rec.progress
                      && r.value.repoId == rec.repoId && r.value.result == rec.result
                      && r.value.error == rec.error
  {
    match Parse(rec.status)
    case None => Err("'" + rec.status + "' is not a valid TaskStatus")
    case Some(status) =>
      if rec.progress.Some? && !(0 <= rec.progress.value <= 100) then Err("progress must be between 0 and 100")
      else Ok(TaskView(taskId, status, rec.message, rec.progress, rec.repoId, rec.result, rec.error))
  }

  /** `not status or task_data.get('status') == status.value`. */
  predicate Matches(rec: TaskRegistry.TaskRecord, filter: Option<TaskStatus>)
  {
    filter.None? || rec.status == Value(filter.value)
  }

  /** The number of entries the filter keeps. */
  function CountMatching(items: seq<(string, TaskRegistry.TaskRecord)>, filter: Option<TaskStatus>): (n: nat)
    ensures n <= |items|
  {
    if items == [] then 0 else (if Matches(items[0].1, filter) then 1 else 0) + CountMatching(items[1..], filter)
  }

  /** The views of the entries the filter keeps, in order; the first entry
      that cannot be converted raises. */
  function ListFrom(items: seq<(string, TaskRegistry.TaskRecord)>, filter: Option<TaskStatus>): Result<seq<TaskView>>
  {
    if items == [] then Ok([])
    else
      var rest := ListFrom(items[1..], filter);
      if !Matches(items[0].1, filter) then rest
      else match ToView(items[0].0, items[0].1)
        case Err(e) => Err(e)
        case Ok(v) => if rest.Err? then rest else Ok([v] + rest.value)
  }

  /** A listing holds one view per entry the filter keeps, each with the
      requested status. */
  lemma {:induction false} ListFromKeepsMatching(items: seq<(string, TaskRegistry.TaskRecord)>, filter: Option<TaskStatus>)
    ensures var r := ListFrom(items, filter);
      r.Ok? ==> |r.value| == CountMatching(items, filter) && forall v :: v in r.value ==> filter.None? || v.status == filter.value
  {
    if items != [] {
      ListFromKeepsMatching(items[1..], filter);
    }
  }

  /** The listing fails exactly when some entry the filter keeps cannot be
      converted. */
  lemma {:induction false} ListFromOkIff(items: seq<(string, TaskRegistry.TaskRecord)>, filter: Option<TaskStatus>)
    ensures ListFrom(items, filter).Ok? <==>
      forall i :: 0 <= i < |items| && Matches(items[i].1, filter) ==> ToView(items[i].0, items[i].1).Ok?
  {
    if items != [] {
      ListFromOkIff(items[1..], filter);
      assert forall i :: 1 <= i < |items| ==> items[i] == items[1..][i - 1];
    }
  }

  /** One step of `ListFrom`, at position `i`. */
  lemma ListStep(items: seq<(string, TaskRegistry.TaskRecord)>, i: nat, filter: Option<TaskStatus>)
    requires i < |items|
    ensures ListFrom(items[i..], filter)
      == if !Matches(items[i].1, filter) then ListFrom(items[i + 1..], filter)
         else if ToView(items[i].0, items[i].1).Err? then Err(ToView(items[i].0, items[i].1).error)
         else Prepend([ToView(items[i].0, items[i].1).value], ListFrom(items[i + 1..], filter))
  {
    assert items[i..][0] == items[i] && items[i..][1..] == items[i + 1..];
  }

  lemma PrependTwice(vs: seq<TaskView>, ws: seq<TaskView>, r: Result<seq<TaskView>>)
    ensures Prepend(vs, Prepend(ws, r)) == Prepend(vs + ws, r)
  {
    if r.Ok? { assert vs + (ws + r.value) == (vs + ws) + r.value; }
  }

  /** A prefix of views in front of a listing. */
  function Prepend(vs: seq<TaskView>, r: Result<seq<TaskView>>): Result<seq<TaskView>>
  {
    if r.Err? then r else Ok(vs + r.value)
  }

  function Min(a: int, b: int): int
  {
    if a <= b then a else b
  }

  /** What `list_tasks(status, limit)` answers for the registry's items. */
  function ListTasksSpec(items: seq<(string, TaskRegistry.TaskRecord)>, filter: Option<TaskStatus>, limit: int): Response<seq<TaskView>>
    requires 1 <= limit <= 100
  {
    match ListFrom(items[..Min(limit, |items|)], filter)
    case Err(e) => HttpError(500, "Failed to list tasks: " + e)
    case Ok(vs) => Answered(vs[..Min(limit, |vs|)])
  }

  /** `list_tasks`: the query layer accepts only `1 <= limit <= 100`; the
      registry is only read. */
  method ListTasks(reg: TaskRegistry.Registry, filter: Option<TaskStatus>, limit: int)
    returns (r: Response<seq<TaskView>>)
    requires reg.Valid() && 1 <= limit <= 100
    ensures r == ListTasksSpec(reg.Items(), filter, limit)
  {
    var items := reg.Items();
    var listed := ListWindow(items[..Min(limit, |items|)], filter);
    match listed {
      case Err(e) => r := HttpError(500, "Failed to list tasks: " + e);
      case Ok(views) => r := Answered(views[..Min(limit, |views|)]);
    }
  }

  /** The loop of `list_tasks` over a window of the registry's items. */
  method ListWindow(window: seq<(string, TaskRegistry.TaskRecord)>, filter: Option<TaskStatus>)
    returns (r: Result<seq<TaskView>>)
    ensures r == ListFrom(window, filter)
  {
    var views: seq<TaskView> := [];
    var i := 0;
    assert Prepend([], ListFrom(window, filter)) == ListFrom(window, filter) by {
      if ListFrom(window, filter).Ok? { assert [] + ListFrom(window, filter).value == ListFrom(window, filter).value; }
    }
    while i < |window|
      invariant 0 <= i <= |window|
      invariant ListFrom(window, filter) == Prepend(views, ListFrom(window[i..], filter))
    {
      var (taskId, data) := window[i];
      ListStep(window, i, filter);
      if Matches(data, filter) {
        var v := ToView(taskId, data);
        if v.Err? {
          return Err(v.error);
        }
        PrependTwice(views, [v.value], ListFrom(window[i + 1..], filter));
        views := views + [v.value];
      }
      i := i + 1;
    }
    assert ListFrom(window[|window|..], filter) == Ok([]) by { assert window[|window|..] == []; }
    assert views + [] == views;
    r := Ok(views);
  }

  /** At most `limit` tasks are listed, each with the requested status. */
  lemma ListTasksBound(items: seq<(string, TaskRegistry.TaskRecord)>, filter: Option<TaskStatus>, limit: int)
    requires 1 <= limit <= 100
    ensures var r := ListTasksSpec(items, filter, limit);
      r.Answered? ==> |r.value| <= limit && forall v :: v in r.value ==> filter.None? || v.status == filter.value
  {
    ListFromKeepsMatching(items[..Min(limit, |items|)], filter);
  }

  /** Only the first `limit` entries are looked at: entries stored after
      them never appear, even when they match. */
  lemma ListIgnoresLater(items: seq<(string, TaskRegistry.TaskRecord)>, later: seq<(string, TaskRegistry.TaskRecord)>,
                         filter: Option<TaskStatus>, limit: int)
    requires 1 <= limit <= 100 && |items| >= limit
    ensures ListTasksSpec(items + later, filter, limit) == ListTasksSpec(items, filter, limit)
  {
    assert (items + later)[..limit] == items[..limit];
  }

  /** `get_task_status_endpoint`: the "not_found" sentinel becomes a 404;
      a record that cannot be converted becomes a 500. */
  function GetTaskStatusEndpoint(reg: TaskRegistry.Registry, taskId: string): (r: Response<TaskView>)
    reads reg
    requires reg.Valid()
    ensures taskId !in reg.records ==> r == HttpError(404, "Task not found")
    ensures taskId in reg.records && reg.records[taskId].status == TaskRegistry.NotFound ==> r == HttpError(404, "Task not found")
    ensures r.Answered? ==> (&& taskId in reg.records && r.value.taskId == taskId
                             && Value(r.value.status) == reg.records[taskId].status
                             && r.value.progress == reg.records[taskId].progress)
    ensures taskId in reg.records && reg.records[taskId].status != TaskRegistry.NotFound ==>
              r == match ToView(taskId, reg.records[taskId])
                   case Ok(v) => Answered(v)
                   case Err(e) => HttpError(500, "Failed to get task status: " + e)
  {
    var info := reg.GetTaskStatus(taskId);
    if info.status == TaskRegistry.NotFound then HttpError(404, "Task not found")
    else match ToView(info.taskId, info)
      case Err(e) => HttpError(500, "Failed to get task status: " + e)
      case Ok(v) => Answered(v)
  }

  /** A task just created by `create_task` is reported as pending, with
      "Task created", progress 0 and nothing else. */
  lemma NewTaskAnswered(reg: TaskRegistry.Registry, taskId: string, now: int)
    requires reg.Valid() && taskId in reg.records && reg.records[taskId] == TaskRegistry.NewTask(taskId, now)
    ensures GetTaskStatusEndpoint(reg, taskId)
         == Answered(TaskView(taskId, Pending, "Task created", Some(0), None, None, None))
  {
  }

  /** After `update_task_status` with a `TaskStatus` value, the endpoint
      reports that status and message, and each optional argument given. */
  lemma UpdatedTaskAnswered(reg: TaskRegistry.Registry, taskId: string, current: Option<TaskRegistry.TaskRecord>,
                            u: TaskRegistry.StatusUpdate, now: int)
    requires reg.Valid() && taskId in reg.records
    requires reg.records[taskId] == TaskRegistry.Updated(current, taskId, u, now)
    requires Parse(u.status).Some?
    requires reg.records[taskId].progress.Some? ==> 0 <= reg.records[taskId].progress.value <= 100
    ensures var r := GetTaskStatusEndpoint(reg, taskId);
      && r.Answered? && r.value.status == Parse(u.status).value && r.value.message == u.message
      && (u.progress.Some? ==> r.value.progress == u.progress)
      && (u.repoId.Some? ==> r.value.repoId == u.repoId)
      && (u.error.Some? ==> r.value.error == u.error)
      && (u.result.Some? ==> r.value.result == u.result)
  {
    ParseValue(Parse(u.status).value);
  }

  /** `cancel_task`: exactly the given id leaves the registry; an absent id
      is a 404 and changes nothing. */
  method CancelTask(reg: TaskRegistry.Registry, taskId: string) returns (r: Response<string>)
    requires reg.Valid()
    modifies reg
    ensures reg.Valid()
    ensures taskId !in old(reg.records) ==>
              r == HttpError(404, "Task not found") && reg.records == old(reg.records) && reg.order == old(reg.order)
    ensures taskId in old(reg.records) ==>
              && r == Answered("Task " + taskId + " removed from tracking")
              && reg.records == old(reg.records) - {taskId}
              && reg.order == TaskRegistry.Remove(old(reg.order), taskId)
  {
    if taskId !in reg.records {
      return HttpError(404, "Task not found");
    }
    reg.Delete(taskId);
    r := Answered("Task " + taskId + " removed from tracking");
  }

  // ---------------------------------------------------------------------
  // `get_task_stats`
  // ---------------------------------------------------------------------

  /** The statuses of the entries, in insertion order. */
  function Statuses(items: seq<(string, TaskRegistry.TaskRecord)>): (ss: seq<string>)
    ensures |ss| == |items| && forall i :: 0 <= i < |items| ==> ss[i] == items[i].1.status
  {
    if items == [] then [] else [items[0].1.status] + Statuses(items[1..])
  }

  /** Occurrences of `s` in `ss`. */
  function Count(ss: seq<string>, s: string): (n: nat)
    ensures s !in ss ==> n == 0
  {
    if ss == [] then 0 else Count(ss[..|ss| - 1], s) + (if ss[|ss| - 1] == s then 1 else 0)
  }

  /** The keys of `status_counts` in the order the loop first meets them. */
  function Distinct(ss: seq<string>): seq<string>
  {
    if ss == [] then []
    else
      var r := Distinct(ss[..|ss| - 1]);
      var s := ss[|ss| - 1];
      if s in r then r else r + [s]
  }

  /** The values of `status_counts`: one count per status met. */
  function Tally(ss: seq<string>): map<string, nat>
  {
    if ss == [] then map[]
    else
      var m := Tally(ss[..|ss| - 1]);
      var s := ss[|ss| - 1];
      m[s := (if s in m then m[s] else 0) + 1]
  }

  /** The statuses met so far, split into the earlier ones and the last. */
  lemma LastSplit(ss: seq<string>)
    requires ss != []
    ensures forall x :: x in ss <==> x in ss[..|ss| - 1] || x == ss[|ss| - 1]
  {
    assert ss == ss[..|ss| - 1] + [ss[|ss| - 1]];
  }

  /** Every status met is listed once among the keys, and nothing else is. */
  lemma {:induction false} DistinctKeys(ss: seq<string>)
    ensures forall s :: s in Distinct(ss) <==> s in ss
    ensures TaskRegistry.NoDuplicates(Distinct(ss))
  {
    if ss != [] {
      DistinctKeys(ss[..|ss| - 1]);
      LastSplit(ss);
    }
  }

  /** Every status met has a count, and nothing else has. */
  lemma {:induction false} TallyKeys(ss: seq<string>)
    ensures forall s :: s in Tally(ss) <==> s in ss
  {
    if ss != [] {
      TallyKeys(ss[..|ss| - 1]);
      LastSplit(ss);
    }
  }

  /** Each status is counted as often as it occurs. */
  lemma {:induction false} TallyCounts(ss: seq<string>)
    ensures forall s :: s in Tally(ss) ==> Tally(ss)[s] == Count(ss, s)
  {
    if ss != [] {
      TallyCounts(ss[..|ss| - 1]);
      TallyKeys(ss[..|ss| - 1]);
    }
  }

  lemma DistinctStep(ss: seq<string>, i: nat)
    requires i < |ss|
    ensures Distinct(ss[..i + 1]) == if ss[i] in Distinct(ss[..i]) then Distinct(ss[..i]) else Distinct(ss[..i]) + [ss[i]]
  {
    var t := ss[..i + 1];
    assert t[..|t| - 1] == ss[..i] && t[|t| - 1] == ss[i];
  }

  lemma TallyStep(ss: seq<string>, i: nat)
    requires i < |ss|
    ensures Tally(ss[..i + 1]) == Tally(ss[..i])[ss[i] := (if ss[i] in Tally(ss[..i]) then Tally(ss[..i])[ss[i]] else 0) + 1]
  {
    var t := ss[..i + 1];
    assert t[..|t| - 1] == ss[..i] && t[|t| - 1] == ss[i];
  }

  /** The sum of `m` over `keys` (a key `m` lacks adds nothing). */
  function SumOver(keys: seq<string>, m: map<string, nat>): nat
  {
    if keys == [] then 0 else (if keys[0] in m then m[keys[0]] else 0) + SumOver(keys[1..], m)
  }

  lemma {:induction false} SumOverOther(keys: seq<string>, m: map<string, nat>, s: string, v: nat)
    requires forall k :: k in keys ==> k in m
    requires s !in keys
    ensures SumOver(keys, m[s := v]) == SumOver(keys, m)
  {
    if keys != [] {
      SumOverOther(keys[1..], m, s, v);
    }
  }

  lemma {:induction false} SumOverBump(keys: seq<string>, m: map<string, nat>, s: string)
    requires forall k :: k in keys ==> k in m
    requires TaskRegistry.NoDuplicates(keys) && s in keys
    ensures SumOver(keys, m[s := m[s] + 1]) == SumOver(keys, m) + 1
  {
    if keys[0] == s {
      assert s !in keys[1..];
      SumOverOther(keys[1..], m, s, m[s] + 1);
    } else {
      SumOverBump(keys[1..], m, s);
    }
  }

  lemma {:induction false} SumOverSnoc(keys: seq<string>, k: string, m: map<string, nat>)
    requires forall x :: x in keys || x == k ==> x in m
    ensures SumOver(keys + [k], m) == SumOver(keys, m) + m[k]
  {
    if keys != [] {
      assert (keys + [k])[1..] == keys[1..] + [k];
      SumOverSnoc(keys[1..], k, m);
    }
  }

  /** The status counts add up to the number of tasks. */
  lemma {:induction false} BreakdownSums(ss: seq<string>)
    ensures SumOver(Distinct(ss), Tally(ss)) == |ss|
  {
    if ss != [] {
      var prefix := ss[..|ss| - 1];
      var s := ss[|ss| - 1];
      var keys := Distinct(prefix);
      var m := Tally(prefix);
      BreakdownSums(prefix);
      DistinctKeys(prefix);
      TallyKeys(prefix);
      if s in keys {
        SumOverBump(keys, m, s);
      } else {
        SumOverOther(keys, m, s, 1);
        SumOverSnoc(keys, s, m[s := 1]);
      }
    }
  }

  /** `get_task_stats`'s answer: `status_counts` is an insertion-ordered
      dictionary, here its keys in order and its values. */
  datatype TaskStats = TaskStats(totalTasks: nat, statusKeys: seq<string>, statusCounts: map<string, nat>)

  /** `get_task_stats`: the total is the number of entries, and the
      breakdown counts each status over the entries; the registry is only
      read. */
  method GetTaskStats(reg: TaskRegistry.Registry) returns (stats: TaskStats)
    requires reg.Valid()
    ensures stats.totalTasks == |reg.records|
    ensures stats.statusKeys == Distinct(Statuses(reg.Items()))
    ensures stats.statusCounts == Tally(Statuses(reg.Items()))
    ensures SumOver(stats.statusKeys, stats.statusCounts) == stats.totalTasks
  {
    var items := reg.Items();
    var keys, counts := CountStatuses(Statuses(items));
    BreakdownSums(Statuses(items));
    stats := TaskStats(|reg.records|, keys, counts);
  }

  /** The loop of `get_task_stats` over the statuses of `task_storage.values()`. */
  method CountStatuses(ss: seq<string>) returns (keys: seq<string>, counts: map<string, nat>)
    ensures keys == Distinct(ss) && counts == Tally(ss)
  {
    keys := [];
    counts := map[];
    var i := 0;
    assert ss[..0] == [];
    while i < |ss|
      invariant 0 <= i <= |ss|
      invariant keys == Distinct(ss[..i]) && counts == Tally(ss[..i])
    {
      var status := ss[i];
      ghost var nextKeys, nextCounts := Distinct(ss[..i + 1]), Tally(ss[..i + 1]);
      DistinctStep(ss, i);
      TallyStep(ss, i);
      counts := counts[status := (if status in counts then counts[status] else 0) + 1];
      assert counts == nextCounts;
      if status !in keys {
        keys := keys + [status];
      }
      assert keys == nextKeys;
      i := i + 1;
    }
    assert ss[..|ss|] == ss;
  }
}
