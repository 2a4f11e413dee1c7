/** The in-memory task registry of the background analysis tasks
    (apps/api/app/services/background_tasks.py): `task_storage` is a
    dictionary from task id to a status record, kept in insertion order,
    which `create_task` and `update_task_status` change in place and which
    `analyze_repository_task` drives through its checkpoints. Clock readings
    are parameters. */
module TaskRegistry {
  import opened Wrappers
  import RepoUtils

  /** `TaskStatus`: the values a task's status takes. */
  const Pending: string := "pending"
  const Started: string := "started"
  const Succeeded: string := "success"
  const Failed: string := "failure"
  const Retry: string := "retry"

  /** The status `get_task_status` reports for an unknown id. */
  const NotFound: string := "not_found"

  /** The "repository" entry of the result of a finished analysis. */
  datatype RepositoryRef = RepositoryRef(name: string, author: string, url: string, fullName: string)

  /** The result dictionary a finished analysis stores (its statistics,
      which repo2text computes, are not part of this model). */
  datatype FinalResult = FinalResult(
    repoId: string, analysisId: string, repository: RepositoryRef,
    treeStructure: Option<string>, documentId: Option<string>,
    aiSummaryId: Option<string>, aiSummarySuccess: bool,
    outputFile: string, progress: int)

  /** One record of `task_storage`; a key the dictionary does not hold is `None`. */
  datatype TaskRecord = TaskRecord(
    taskId: string, status: string, message: string,
    createdAt: Option<int>, updatedAt: Option<int>,
    progress: Option<int>, repoId: Option<string>, error: Option<string>,
    repoInfo: Option<RepoUtils.RepoInfo>, result: Option<FinalResult>)

  /** The arguments of one `update_task_status` call after the task id;
      `None` is an argument left at its default. */
  datatype StatusUpdate = StatusUpdate(
    status: string, message: string, progress: Option<int>,
    repoId: Option<string>, error: Option<string>,
    repoInfo: Option<RepoUtils.RepoInfo>, result: Option<FinalResult>)

  /** The record `create_task` stores. */
  function NewTask(taskId: string, now: int): (r: TaskRecord)
    ensures r.taskId == taskId && r.status == Pending && r.message == "Task created"
    ensures r.progress == Some(0) && r.createdAt == Some(now) && r.updatedAt == None
    ensures r.repoId == None && r.error == None && r.repoInfo == None && r.result == None
  {
    TaskRecord(taskId, Pending, "Task created", Some(now), None, Some(0), None, None, None, None)
  }

  /** The record `update_task_status` inserts first for an unknown id. */
  function Inserted(taskId: string, now: int): TaskRecord
  {
    TaskRecord(taskId, Pending, "Task created", Some(now), None, None, None, None, None, None)
  }

  /** A given argument, else the value already there. */
  function Or<T>(given: Option<T>, current: Option<T>): (r: Option<T>)
    ensures given.Some? ==> r == given
    ensures given.None? ==> r == current
  {
    if given.Some? then given else current
  }

  /** The record after `update_task_status(task_id, ...)` when the registry
      held `current` under that id. */
  function Updated(current: Option<TaskRecord>, taskId: string, u: StatusUpdate, now: int): (r: TaskRecord)
    ensures r.status == u.status && r.message == u.message && r.updatedAt == Some(now)
    ensures current.None? ==> r.taskId == taskId && r.createdAt == Some(now)
    ensures current.Some? ==> r.taskId == current.value.taskId && r.createdAt == current.value.createdAt
  {
    var base := if current.Some? then current.value else Inserted(taskId, now);
    base.(status := u.status, message := u.message, updatedAt := Some(now),
          progress := Or(u.progress, base.progress), repoId := Or(u.repoId, base.repoId),
          error := Or(u.error, base.error), repoInfo := Or(u.repoInfo, base.repoInfo),
          result := Or(u.result, base.result))
  }

  /** The optional arguments merge field by field: one given overwrites the
      field, one left `None` keeps what the record held (nothing, for a new
      record). */
  lemma UpdateMerges(current: Option<TaskRecord>, taskId: string, u: StatusUpdate, now: int)
    ensures var r := Updated(current, taskId, u, now);
      && (u.progress.Some? ==> r.progress == u.progress)
      && (u.progress.None? ==> r.progress == if current.Some? then current.value.progress else None)
      && (u.repoId.Some? ==> r.repoId == u.repoId)
      && (u.repoId.None? ==> r.repoId == if current.Some? then current.value.repoId else None)
      && (u.error.Some? ==> r.error == u.error)
      && (u.error.None? ==> r.error == if current.Some? then current.value.error else None)
      && (u.repoInfo.Some? ==> r.repoInfo == u.repoInfo)
      && (u.repoInfo.None? ==> r.repoInfo == if current.Some? then current.value.repoInfo else None)
      && (u.result.Some? ==> r.result == u.result)
      && (u.result.None? ==> r.result == if current.Some? then current.value.result else None)
  {
  }

  /** Repeating an update with the same clock reading changes nothing more. */
  lemma UpdateIdempotent(current: Option<TaskRecord>, taskId: string, u: StatusUpdate, now: int)
    ensures var once := Updated(current, taskId, u, now);
      Updated(Some(once), taskId, u, now) == once
  {
  }

  /** The record under `k`, if any. */
  function Lookup(records: map<string, TaskRecord>, k: string): (r: Option<TaskRecord>)
    ensures r.Some? <==> k in records
    ensures r.Some? ==> r.value == records[k]
  {
    if k in records then Some(records[k]) else None
  }

  /** The record after a series of updates, applied in order. */
  function ApplyAll(current: Option<TaskRecord>, taskId: string, us: seq<StatusUpdate>, now: int): (r: Option<TaskRecord>)
    ensures us != [] ==> r.Some?
    decreases |us|
  {
    if us == [] then current
    else ApplyAll(Some(Updated(current, taskId, us[0], now)), taskId, us[1..], now)
  }

  lemma {:induction false} ApplyAllSnoc(current: Option<TaskRecord>, taskId: string, us: seq<StatusUpdate>,
                                         u: StatusUpdate, now: int)
    ensures ApplyAll(current, taskId, us + [u], now) == Some(Updated(ApplyAll(current, taskId, us, now), taskId, u, now))
    decreases |us|
  {
    if us == [] {
      assert ApplyAll(Some(Updated(current, taskId, u, now)), taskId, [], now) == Some(Updated(current, taskId, u, now));
    } else {
      assert (us + [u])[1..] == us[1..] + [u];
      ApplyAllSnoc(Some(Updated(current, taskId, us[0], now)), taskId, us[1..], u, now);
    }
  }

  /** No key is listed twice. */
  predicate NoDuplicates(s: seq<string>)
  {
    forall i, j :: 0 <= i < j < |s| ==> s[i] != s[j]
  }

  /** The keys in insertion order after assigning `k`: a new key goes last,
      an existing one keeps its place. */
  function Appended(order: seq<string>, k: string): (r: seq<string>)
    ensures k in r && forall x :: x in r <==> x in order || x == k
  {
    if k in order then order else order + [k]
  }

  /** `s` without `k`. */
  function Remove(s: seq<string>, k: string): (r: seq<string>)
    ensures forall x :: x in r <==> x in s && x != k
    ensures NoDuplicates(s) ==> NoDuplicates(r)
    ensures |r| <= |s|
  {
    if s == [] then []
    else if s[0] == k then Remove(s[1..], k)
    else
      var rest := Remove(s[1..], k);
      assert NoDuplicates(s) ==> s[0] !in s[1..];
      [s[0]] + rest
  }

  /** `list(task_storage.items())` for these keys. */
  function ItemsOf(order: seq<string>, records: map<string, TaskRecord>): (r: seq<(string, TaskRecord)>)
    requires forall k :: k in order ==> k in records
    ensures |r| == |order|
    ensures forall i :: 0 <= i < |r| ==> r[i] == (order[i], records[order[i]])
  {
    if order == [] then [] else [(order[0], records[order[0]])] + ItemsOf(order[1..], records)
  }

  /** The keys of a map whose keys are listed without repetition in `s`
      number `|s|`. */
  lemma KeysCount(s: seq<string>, m: map<string, TaskRecord>)
    requires NoDuplicates(s) && forall k :: k in m <==> k in s
    ensures |m| == |s|
  {
    DistinctCount(s);
    assert m.Keys == set x | x in s;
  }

  /** A sequence without repetitions has as many elements as its set. */
  lemma {:induction false} DistinctCount(s: seq<string>)
    requires NoDuplicates(s)
    ensures |set x | x in s| == |s|
  {
    if s != [] {
      var rest := s[1..];
      assert NoDuplicates(rest) by {
        forall i, j | 0 <= i < j < |rest| ensures rest[i] != rest[j] {
          assert rest[i] == s[i + 1] && rest[j] == s[j + 1];
        }
      }
      assert s[0] !in rest by {
        forall i | 0 <= i < |rest| ensures rest[i] != s[0] { assert rest[i] == s[i + 1]; }
      }
      DistinctCount(rest);
      assert s == [s[0]] + rest;
      assert (set x | x in s) == (set x | x in rest) + {s[0]};
    }
  }

  /** `task_storage`: records keyed by task id, keys in insertion order. */
  class Registry {
    var order: seq<string>
    var records: map<string, TaskRecord>

    /** The keys are listed once each, in `order`, and every record is filed
        under its own id. */
    ghost predicate Valid()
      reads this
    {
      && NoDuplicates(order)
      && (forall k :: k in records <==> k in order)
      && (forall k :: k in records ==> records[k].taskId == k)
    }

    /** `list(task_storage.items())`. */
    function Items(): (r: seq<(string, TaskRecord)>)
      reads this
      requires Valid()
      ensures |r| == |order| == |records|
    {
      KeysCount(order, records);
      ItemsOf(order, records)
    }

    constructor()
      ensures Valid() && order == [] && records == map[]
    {
      order := [];
      records := map[];
    }

    /** Store `r` under `k` as a dictionary assignment does. */
    method Assign(k: string, r: TaskRecord)
      requires Valid() && r.taskId == k
      modifies this
      ensures Valid()
      ensures records == old(records)[k := r] && order == Appended(old(order), k)
    {
      if k !in order {
        assert forall i :: 0 <= i < |order| ==> order[i] != k;
        order := order + [k];
      }
      records := records[k := r];
    }

    /** `del task_storage[k]`. */
    method Delete(k: string)
      requires Valid() && k in records
      modifies this
      ensures Valid()
      ensures records == old(records) - {k} && order == Remove(old(order), k)
    {
      order := Remove(order, k);
      records := records - {k};
    }

    /** `create_task`: a pending record with progress 0 under `taskId`,
        replacing whatever was there; no other entry changes. */
    method CreateTask(taskId: string, now: int) returns (rec: TaskRecord)
      requires Valid()
      modifies this
      ensures Valid()
      ensures rec == NewTask(taskId, now)
      ensures records == old(records)[taskId := rec] && order == Appended(old(order), taskId)
    {
      rec := NewTask(taskId, now);
      Assign(taskId, rec);
    }

    /** `update_task_status`: only the entry for `taskId` changes, and it
        becomes the merge of the update into what was there. */
    method UpdateTaskStatus(taskId: string, u: StatusUpdate, now: int)
      requires Valid()
      modifies this
      ensures Valid()
      ensures records == old(records)[taskId := Updated(Lookup(old(records), taskId), taskId, u, now)]
      ensures order == Appended(old(order), taskId)
    {
      var current := Lookup(records, taskId);
      Assign(taskId, Updated(current, taskId, u, now));
    }

    /** `get_task_status`: the stored record, or the "not_found" sentinel;
        the registry is only read. */
    function GetTaskStatus(taskId: string): (r: TaskRecord)
      reads this
      requires Valid()
      ensures taskId in records ==> r == records[taskId] && r.status == records[taskId].status
      ensures taskId !in records ==> r == NotFoundRecord(taskId)
    {
      if taskId in records then records[taskId] else NotFoundRecord(taskId)
    }

    /** One status update of the analysis driver; `applied` is the ghost
        trace of the updates made so far, starting from `records0` and
        `order0`. */
    method Report(taskId: string, u: StatusUpdate, now: int,
                  ghost records0: map<string, TaskRecord>, ghost order0: seq<string>,
                  ghost applied: seq<StatusUpdate>)
      returns (ghost applied': seq<StatusUpdate>)
      requires Valid()
      requires records == Traced(records0, taskId, applied, now)
      requires order == if applied == [] then order0 else Appended(order0, taskId)
      modifies this
      ensures Valid() && applied' == applied + [u]
      ensures records == Traced(records0, taskId, applied', now)
      ensures order == Appended(order0, taskId)
    {
      ghost var before := records;
      UpdateTaskStatus(taskId, u, now);
      applied' := applied + [u];
      ApplyAllSnoc(Lookup(records0, taskId), taskId, applied, u, now);
      assert Lookup(before, taskId) == ApplyAll(Lookup(records0, taskId), taskId, applied, now);
      assert records == records0[taskId := ApplyAll(Lookup(records0, taskId), taskId, applied', now).value];
    }

    /** `analyze_repository_task`: the task's record goes through the
        updates `AnalysisUpdates` lists, and nothing else in the registry
        changes. */
    method AnalyzeRepositoryTask(taskId: string, githubUrl: string, env: Environment, now: int)
      requires Valid()
      modifies this
      ensures Valid()
      ensures records == Traced(old(records), taskId,
                                AnalysisUpdates(githubUrl, RepoUtils.ExtractRepoInfo(githubUrl), env), now)
      ensures order == Appended(old(order), taskId)
    {
      var extracted := RepoUtils.ExtractRepoInfo(githubUrl);
      Run(taskId, githubUrl, extracted, env, now);
    }

    /** The driver once `extract_repo_info` has given `extracted`. */
    method Run(taskId: string, githubUrl: string, extracted: Result<RepoUtils.RepoInfo>, env: Environment, now: int)
      requires Valid()
      modifies this
      ensures Valid()
      ensures records == Traced(old(records), taskId, AnalysisUpdates(githubUrl, extracted, env), now)
      ensures order == Appended(old(order), taskId)
    {
      ghost var r0 := records;
      ghost var o0 := order;
      ghost var done: seq<StatusUpdate> := [];
      done := Report(taskId, Progress("Extracting repository information", 10, None), now, r0, o0, done);
      if extracted.Err? {
        done := Report(taskId, Failure(extracted.error, None), now, r0, o0, done);
        assert done == AnalysisUpdates(githubUrl, extracted, env);
        return;
      }
      var info := extracted.value;
      var repoId: string;
      match env.existingRepo {
        case Err(e) =>
          done := Report(taskId, Failure(e, Some(info)), now, r0, o0, done);
          assert done == AnalysisUpdates(githubUrl, extracted, env);
          return;
        case Ok(existing) =>
          if existing.Some? {
            repoId := existing.value;
          } else if env.createdRepo.Err? {
            done := Report(taskId, Failure(env.createdRepo.error, Some(info)), now, r0, o0, done);
            assert done == AnalysisUpdates(githubUrl, extracted, env);
            return;
          } else {
            repoId := env.createdRepo.value;
          }
      }
      ghost var head := done;
      assert AnalysisUpdates(githubUrl, extracted, env) == head + AfterRepo(githubUrl, info, repoId, env);
      done := RunFromRepository(taskId, githubUrl, info, repoId, env, now, r0, o0, done);
    }

    /** The steps of `analyze_repository_task` once the repository id is
        known: checkpoint 20 and the analyzer's set-up, checkpoint 30 and
        repo2text, then the later checkpoints and SUCCESS, or FAILURE at the
        first step that raises. */
    method RunFromRepository(taskId: string, githubUrl: string, info: RepoUtils.RepoInfo, repoId: string,
                             env: Environment, now: int,
                             ghost r0: map<string, TaskRecord>, ghost o0: seq<string>,
                             ghost head: seq<StatusUpdate>)
      returns (ghost done: seq<StatusUpdate>)
      requires Valid() && head != []
      requires records == Traced(r0, taskId, head, now) && order == Appended(o0, taskId)
      modifies this
      ensures Valid() && done == head + AfterRepo(githubUrl, info, repoId, env)
      ensures records == Traced(r0, taskId, done, now) && order == Appended(o0, taskId)
    {
      var id := Some(repoId);
      var initializing := Progress("Initializing repository analyzer", 20, id);
      var processing := Progress("Processing repository with repo2text", 30, id);
      AfterRepoCases(githubUrl, info, repoId, env);
      done := Report(taskId, initializing, now, r0, o0, head);
      if env.setup.Err? {
        var failure := Failure(env.setup.error, Some(info));
        done := Report(taskId, failure, now, r0, o0, done);
        AppendTwo(head, initializing, failure);
        return;
      }
      done := Report(taskId, processing, now, r0, o0, done);
      match env.analyzer {
        case AnalyzerRaised(e) =>
          var failure := Failure(e, Some(info));
          done := Report(taskId, failure, now, r0, o0, done);
          AppendThree(head, initializing, processing, failure);
        case AnalyzerUnsuccessful(reported) =>
          var failure := Failure(UnsuccessfulMessage(reported), Some(info));
          done := Report(taskId, failure, now, r0, o0, done);
          AppendThree(head, initializing, processing, failure);
        case AnalyzerSucceeded(content, outputFile, tree) =>
          done := SaveAnalysis(taskId, githubUrl, info, repoId, content, outputFile, tree, env, now, r0, o0, done);
          AppendAfterTwo(head, initializing, processing, AfterProcessing(githubUrl, info, repoId, content, outputFile, tree, env));
      }
    }

    /** Checkpoint 60 and the reading of the dump, checkpoint 75 and the
        analysis row. */
    method SaveAnalysis(taskId: string, githubUrl: string, info: RepoUtils.RepoInfo, repoId: string,
                        content: string, outputFile: string, tree: Option<string>,
                        env: Environment, now: int,
                        ghost r0: map<string, TaskRecord>, ghost o0: seq<string>,
                        ghost head: seq<StatusUpdate>)
      returns (ghost done: seq<StatusUpdate>)
      requires Valid() && head != []
      requires records == Traced(r0, taskId, head, now) && order == Appended(o0, taskId)
      modifies this
      ensures Valid() && done == head + AfterProcessing(githubUrl, info, repoId, content, outputFile, tree, env)
      ensures records == Traced(r0, taskId, done, now) && order == Appended(o0, taskId)
    {
      var id := Some(repoId);
      var extracting := Progress("Extracting analysis data", 60, id);
      var saving := Progress("Saving analysis to database", 75, id);
      AfterProcessingCases(githubUrl, info, repoId, content, outputFile, tree, env);
      done := Report(taskId, extracting, now, r0, o0, head);
      if env.dumpRead.Err? {
        var failure := Failure(env.dumpRead.error, Some(info));
        done := Report(taskId, failure, now, r0, o0, done);
        AppendTwo(head, extracting, failure);
        return;
      }
      done := Report(taskId, saving, now, r0, o0, done);
      match env.analysis {
        case Err(e) =>
          var failure := Failure(e, Some(info));
          done := Report(taskId, failure, now, r0, o0, done);
          AppendThree(head, extracting, saving, failure);
        case Ok(analysisId) =>
          done := Finish(taskId, githubUrl, info, repoId, analysisId, content, outputFile, tree, env, now, r0, o0, done);
          AppendAfterTwo(head, extracting, saving,
                         AfterAnalysis(githubUrl, info, repoId, analysisId, content, outputFile, tree, env));
      }
    }

    /** Checkpoint 85 and the content document, checkpoint 90 and the AI
        summary (whose failures are swallowed), the repository update, and
        SUCCESS. */
    method Finish(taskId: string, githubUrl: string, info: RepoUtils.RepoInfo, repoId: string, analysisId: string,
                  content: string, outputFile: string, tree: Option<string>,
                  env: Environment, now: int,
                  ghost r0: map<string, TaskRecord>, ghost o0: seq<string>,
                  ghost head: seq<StatusUpdate>)
      returns (ghost done: seq<StatusUpdate>)
      requires Valid() && head != []
      requires records == Traced(r0, taskId, head, now) && order == Appended(o0, taskId)
      modifies this
      ensures Valid() && done == head + AfterAnalysis(githubUrl, info, repoId, analysisId, content, outputFile, tree, env)
      ensures records == Traced(r0, taskId, done, now) && order == Appended(o0, taskId)
    {
      var id := Some(repoId);
      var saving := Progress("Saving repository content", 85, id);
      AfterAnalysisCases(githubUrl, info, repoId, analysisId, content, outputFile, tree, env);
      done := Report(taskId, saving, now, r0, o0, head);
      if content != [] && env.document.Err? {
        var failure := Failure(env.document.error, Some(info));
        done := Report(taskId, failure, now, r0, o0, done);
        AppendTwo(head, saving, failure);
        return;
      }
      var summarising := Progress("Generating AI summary", 90, id);
      done := Report(taskId, summarising, now, r0, o0, done);
      // the AI summary step raises nothing out of its own try block
      var last: StatusUpdate;
      if env.repositoryUpdate.Err? {
        last := Failure(env.repositoryUpdate.error, Some(info));
      } else {
        last := Completion(githubUrl, info, repoId, analysisId, content, outputFile, tree, env);
      }
      assert last == Concluding(githubUrl, info, repoId, analysisId, content, outputFile, tree, env);
      done := Report(taskId, last, now, r0, o0, done);
      AppendThree(head, saving, summarising, last);
    }
  }

  lemma AppendTwo(head: seq<StatusUpdate>, a: StatusUpdate, b: StatusUpdate)
    ensures head + [a] + [b] == head + [a, b]
  {
  }

  lemma AppendThree(head: seq<StatusUpdate>, a: StatusUpdate, b: StatusUpdate, c: StatusUpdate)
    ensures head + [a] + [b] + [c] == head + [a, b, c]
  {
  }

  lemma AppendAfterTwo(head: seq<StatusUpdate>, a: StatusUpdate, b: StatusUpdate, rest: seq<StatusUpdate>)
    ensures head + [a] + [b] + rest == head + ([a, b] + rest)
  {
  }

  /** The registry after the updates `us` to `taskId`, starting from `records0`. */
  ghost function Traced(records0: map<string, TaskRecord>, taskId: string, us: seq<StatusUpdate>, now: int): map<string, TaskRecord>
  {
    if us == [] then records0
    else records0[taskId := ApplyAll(Lookup(records0, taskId), taskId, us, now).value]
  }

  /** The record `get_task_status` returns for an id the registry lacks. */
  function NotFoundRecord(taskId: string): (r: TaskRecord)
    ensures r.status == NotFound && r.error == Some("Task not found") && r.message == "Task not found"
  {
    TaskRecord(taskId, NotFound, "Task not found", None, None, None, None, Some("Task not found"), None, None)
  }

  // ---------------------------------------------------------------------
  // `analyze_repository_task` over the outcomes of its collaborators
  // ---------------------------------------------------------------------

  /** What `RepoAnalyzer.process_repository` does: raise, report failure
      (with its "error" entry when present), or produce the dump. */
  datatype AnalyzerRun =
    | AnalyzerRaised(error: string)
    | AnalyzerUnsuccessful(reported: Option<string>)
    | AnalyzerSucceeded(content: string, outputFile: string, treeStructure: Option<string>)

  /** What `generate_repository_summary` does: raise, or return a result
      whose "success" entry is `success`. */
  datatype SummaryRun = SummaryRaised(error: string) | SummaryReturned(success: bool)

  /** The outcome of every database, analyzer and model call the task
      makes, in the order it makes them. `setup` is the creation of the two
      temporary directories and of the `RepoAnalyzer`; `dumpRead` is the
      reading of the output file and of the result's statistics entries. */
  datatype Environment = Environment(
    existingRepo: Result<Option<string>>,
    createdRepo: Result<string>,
    setup: Result<()>,
    analyzer: AnalyzerRun,
    dumpRead: Result<()>,
    analysis: Result<string>,
    document: Result<string>,
    summary: SummaryRun,
    markPrevious: Result<()>,
    summaryDocument: Result<string>,
    repositoryUpdate: Result<()>)

  /** A STARTED update at a checkpoint. */
  function Progress(message: string, progress: int, repoId: Option<string>): StatusUpdate
  {
    StatusUpdate(Started, message, Some(progress), repoId, None, None, None)
  }

  /** The update of the exception handler: no progress, no result. */
  function Failure(error: string, repoInfo: Option<RepoUtils.RepoInfo>): StatusUpdate
  {
    StatusUpdate(Failed, "Analysis failed", None, None, Some(error), repoInfo, None)
  }

  /** The updates `analyze_repository_task(task_id, github_url)` makes, in
      order, when `extract_repo_info(github_url)` gives `extracted`. */
  function AnalysisUpdates(githubUrl: string, extracted: Result<RepoUtils.RepoInfo>, env: Environment): seq<StatusUpdate>
  {
    var first := Progress("Extracting repository information", 10, None);
    match extracted
    case Err(e) => [first, Failure(e, None)]
    case Ok(info) =>
      match env.existingRepo
      case Err(e) => [first, Failure(e, Some(info))]
      case Ok(existing) =>
        if existing.Some? then [first] + AfterRepo(githubUrl, info, existing.value, env)
        else match env.createdRepo
          case Err(e) => [first, Failure(e, Some(info))]
          case Ok(id) => [first] + AfterRepo(githubUrl, info, id, env)
  }

  /** The message of the exception raised when repo2text reports failure. */
  function UnsuccessfulMessage(reported: Option<string>): string
  {
    "repo2text analysis failed: " + (if reported.Some? then reported.value else "Unknown error")
  }

  /** The updates once the repository id is known. */
  function AfterRepo(githubUrl: string, info: RepoUtils.RepoInfo, repoId: string, env: Environment): seq<StatusUpdate>
  {
    var id := Some(repoId);
    [Progress("Initializing repository analyzer", 20, id)]
    + (if env.setup.Err? then [Failure(env.setup.error, Some(info))]
       else
         [Progress("Processing repository with repo2text", 30, id)]
         + match env.analyzer
           case AnalyzerRaised(e) => [Failure(e, Some(info))]
           case AnalyzerUnsuccessful(reported) => [Failure(UnsuccessfulMessage(reported), Some(info))]
           case AnalyzerSucceeded(content, outputFile, tree) =>
             AfterProcessing(githubUrl, info, repoId, content, outputFile, tree, env))
  }

  /** The updates once repo2text has produced the dump. */
  function AfterProcessing(githubUrl: string, info: RepoUtils.RepoInfo, repoId: string,
                           content: string, outputFile: string, tree: Option<string>,
                           env: Environment): seq<StatusUpdate>
  {
    var id := Some(repoId);
    [Progress("Extracting analysis data", 60, id)]
    + (if env.dumpRead.Err? then [Failure(env.dumpRead.error, Some(info))]
       else
         [Progress("Saving analysis to database", 75, id)]
         + match env.analysis
           case Err(e) => [Failure(e, Some(info))]
           case Ok(analysisId) => AfterAnalysis(githubUrl, info, repoId, analysisId, content, outputFile, tree, env))
  }

  /** The updates once the analysis row is stored. */
  function AfterAnalysis(githubUrl: string, info: RepoUtils.RepoInfo, repoId: string, analysisId: string,
                         content: string, outputFile: string, tree: Option<string>,
                         env: Environment): seq<StatusUpdate>
  {
    var id := Some(repoId);
    [Progress("Saving repository content", 85, id)]
    + if content != [] && env.document.Err? then [Failure(env.document.error, Some(info))]
      else [Progress("Generating AI summary", 90, id), Concluding(githubUrl, info, repoId, analysisId, content, outputFile, tree, env)]
  }

  lemma AfterRepoCases(githubUrl: string, info: RepoUtils.RepoInfo, repoId: string, env: Environment)
    ensures var us := AfterRepo(githubUrl, info, repoId, env);
      var initializing := Progress("Initializing repository analyzer", 20, Some(repoId));
      var processing := Progress("Processing repository with repo2text", 30, Some(repoId));
      && (env.setup.Err? ==> us == [initializing, Failure(env.setup.error, Some(info))])
      && (env.setup.Ok? ==>
            match env.analyzer
            case AnalyzerRaised(e) => us == [initializing, processing, Failure(e, Some(info))]
            case AnalyzerUnsuccessful(reported) =>
              us == [initializing, processing, Failure(UnsuccessfulMessage(reported), Some(info))]
            case AnalyzerSucceeded(content, outputFile, tree) =>
              us == [initializing, processing] + AfterProcessing(githubUrl, info, repoId, content, outputFile, tree, env))
  {
  }

  lemma AfterProcessingCases(githubUrl: string, info: RepoUtils.RepoInfo, repoId: string,
                             content: string, outputFile: string, tree: Option<string>, env: Environment)
    ensures var us := AfterProcessing(githubUrl, info, repoId, content, outputFile, tree, env);
      var extracting := Progress("Extracting analysis data", 60, Some(repoId));
      var saving := Progress("Saving analysis to database", 75, Some(repoId));
      && (env.dumpRead.Err? ==> us == [extracting, Failure(env.dumpRead.error, Some(info))])
      && (env.dumpRead.Ok? ==>
            match env.analysis
            case Err(e) => us == [extracting, saving, Failure(e, Some(info))]
            case Ok(analysisId) =>
              us == [extracting, saving] + AfterAnalysis(githubUrl, info, repoId, analysisId, content, outputFile, tree, env))
  {
  }

  lemma AfterAnalysisCases(githubUrl: string, info: RepoUtils.RepoInfo, repoId: string, analysisId: string,
                           content: string, outputFile: string, tree: Option<string>, env: Environment)
    ensures var us := AfterAnalysis(githubUrl, info, repoId, analysisId, content, outputFile, tree, env);
      var saving := Progress("Saving repository content", 85, Some(repoId));
      && (content != [] && env.document.Err? ==> us == [saving, Failure(env.document.error, Some(info))])
      && (!(content != [] && env.document.Err?) ==>
            us == [saving, Progress("Generating AI summary", 90, Some(repoId)),
                   Concluding(githubUrl, info, repoId, analysisId, content, outputFile, tree, env)])
  {
  }

  /** The last update once the AI summary step is behind: FAILURE when the
      repository update raises, SUCCESS otherwise. */
  function Concluding(githubUrl: string, info: RepoUtils.RepoInfo, repoId: string, analysisId: string,
                      content: string, outputFile: string, tree: Option<string>, env: Environment): StatusUpdate
    requires content != [] ==> env.document.Ok?
  {
    if env.repositoryUpdate.Err? then Failure(env.repositoryUpdate.error, Some(info))
    else Completion(githubUrl, info, repoId, analysisId, content, outputFile, tree, env)
  }

  /** The SUCCESS update with the result dictionary. */
  function Completion(githubUrl: string, info: RepoUtils.RepoInfo, repoId: string, analysisId: string,
                      content: string, outputFile: string, tree: Option<string>, env: Environment): StatusUpdate
    requires content != [] ==> env.document.Ok?
  {
    var result := FinalResult(
      repoId, analysisId, RepositoryRef(info.repoName, info.owner, githubUrl, info.fullName), tree,
      if content != [] then Some(env.document.value) else None,
      SummaryDocumentId(env), env.summary == SummaryReturned(true), outputFile, 100);
    StatusUpdate(Succeeded, "Analysis completed successfully", Some(100), Some(repoId), None, None, Some(result))
  }

  /** The AI summary document is stored only after a successful summary,
      a successful marking of the previous ones, and a successful insert. */
  function SummaryDocumentId(env: Environment): Option<string>
  {
    if env.summary == SummaryReturned(true) && env.markPrevious.Ok? && env.summaryDocument.Ok?
    then Some(env.summaryDocument.value) else None
  }

  /** The checkpoints of the STARTED updates. */
  const Checkpoints: seq<int> := [10, 20, 30, 60, 75, 85, 90]

  /** A run of the driver: STARTED updates at strictly increasing
      checkpoints, ended by SUCCESS at 100 with a result or by FAILURE with
      an error and no progress or result. */
  predicate WellFormedRun(us: seq<StatusUpdate>)
  {
    && |us| >= 2
    && (forall i :: 0 <= i < |us| - 1 ==>
          us[i].status == Started && us[i].progress.Some? && us[i].progress.value in Checkpoints
          && us[i].error == None && us[i].result == None)
    && (forall i, j :: 0 <= i < j < |us| - 1 ==> us[i].progress.value < us[j].progress.value)
    && Terminal(us[|us| - 1])
  }

  predicate Terminal(u: StatusUpdate)
  {
    || (u.status == Succeeded && u.message == "Analysis completed successfully"
        && u.progress == Some(100) && u.error == None && u.result.Some?)
    || (u.status == Failed && u.message == "Analysis failed"
        && u.progress == None && u.error.Some? && u.result == None)
  }

  /** Updates that reach the checkpoints from `Checkpoints[k]` on, in
      order, for repository `repoId`, and end in SUCCESS or FAILURE. */
  predicate StageFrom(us: seq<StatusUpdate>, k: nat, repoId: string)
  {
    && 1 <= |us| && k + |us| <= |Checkpoints| + 1
    && (forall i :: 0 <= i < |us| - 1 ==> us[i] == Progress(us[i].message, Checkpoints[k + i], Some(repoId)))
    && Terminal(us[|us| - 1])
  }

  lemma StagePrefix(u: StatusUpdate, us: seq<StatusUpdate>, k: nat, repoId: string)
    requires 1 <= k <= |Checkpoints| && StageFrom(us, k, repoId)
    requires u == Progress(u.message, Checkpoints[k - 1], Some(repoId))
    ensures StageFrom([u] + us, k - 1, repoId)
  {
    var vs := [u] + us;
    forall i | 0 <= i < |vs| - 1 ensures vs[i] == Progress(vs[i].message, Checkpoints[k - 1 + i], Some(repoId)) {
      if i > 0 { assert vs[i] == us[i - 1]; }
    }
  }

  lemma AfterAnalysisShape(githubUrl: string, info: RepoUtils.RepoInfo, repoId: string, analysisId: string,
                           content: string, outputFile: string, tree: Option<string>, env: Environment)
    ensures StageFrom(AfterAnalysis(githubUrl, info, repoId, analysisId, content, outputFile, tree, env), 5, repoId)
  {
  }

  lemma AfterProcessingShape(githubUrl: string, info: RepoUtils.RepoInfo, repoId: string,
                             content: string, outputFile: string, tree: Option<string>, env: Environment)
    ensures StageFrom(AfterProcessing(githubUrl, info, repoId, content, outputFile, tree, env), 3, repoId)
  {
    var id := Some(repoId);
    if env.dumpRead.Ok? && env.analysis.Ok? {
      var rest := AfterAnalysis(githubUrl, info, repoId, env.analysis.value, content, outputFile, tree, env);
      AfterAnalysisShape(githubUrl, info, repoId, env.analysis.value, content, outputFile, tree, env);
      StagePrefix(Progress("Saving analysis to database", 75, id), rest, 5, repoId);
      StagePrefix(Progress("Extracting analysis data", 60, id), [Progress("Saving analysis to database", 75, id)] + rest, 4, repoId);
      assert AfterProcessing(githubUrl, info, repoId, content, outputFile, tree, env)
        == [Progress("Extracting analysis data", 60, id)] + ([Progress("Saving analysis to database", 75, id)] + rest);
    }
  }

  /** The checkpoints of `AfterRepo` and what ends it. */
  lemma AfterRepoShape(githubUrl: string, info: RepoUtils.RepoInfo, repoId: string, env: Environment)
    ensures StageFrom(AfterRepo(githubUrl, info, repoId, env), 1, repoId)
  {
    var id := Some(repoId);
    if env.setup.Ok? && env.analyzer.AnalyzerSucceeded? {
      var a := env.analyzer;
      var rest := AfterProcessing(githubUrl, info, repoId, a.content, a.outputFile, a.treeStructure, env);
      AfterProcessingShape(githubUrl, info, repoId, a.content, a.outputFile, a.treeStructure, env);
      StagePrefix(Progress("Processing repository with repo2text", 30, id), rest, 3, repoId);
      StagePrefix(Progress("Initializing repository analyzer", 20, id),
                  [Progress("Processing repository with repo2text", 30, id)] + rest, 2, repoId);
      assert AfterRepo(githubUrl, info, repoId, env)
        == [Progress("Initializing repository analyzer", 20, id)] + ([Progress("Processing repository with repo2text", 30, id)] + rest);
    }
  }

  /** The checkpoints increase strictly. */
  lemma CheckpointLess(i: int, j: int)
    requires 0 <= i < j < |Checkpoints|
    ensures Checkpoints[i] < Checkpoints[j]
  {
  }

  /** The first checkpoint followed by the stages from the second is a
      well-formed run. */
  lemma StagedRunWellFormed(first: StatusUpdate, rest: seq<StatusUpdate>, repoId: string)
    requires first == Progress(first.message, Checkpoints[0], None) && StageFrom(rest, 1, repoId)
    ensures WellFormedRun([first] + rest)
  {
    var us := [first] + rest;
    StagedProgress(first, rest, repoId);
    forall i, j | 0 <= i < j < |us| - 1 ensures us[i].progress.value < us[j].progress.value {
      assert us[i].progress == Some(Checkpoints[i]) && us[j].progress == Some(Checkpoints[j]);
      CheckpointLess(i, j);
    }
    assert us[|us| - 1] == rest[|rest| - 1];
  }

  /** Update `i` of such a run is STARTED at `Checkpoints[i]`, with no error
      and no result. */
  lemma {:induction false} StagedProgress(first: StatusUpdate, rest: seq<StatusUpdate>, repoId: string)
    requires first == Progress(first.message, Checkpoints[0], None) && StageFrom(rest, 1, repoId)
    ensures |rest| <= |Checkpoints|
    ensures forall i :: 0 <= i < |rest| ==>
      var u := ([first] + rest)[i];
      u.status == Started && u.progress == Some(Checkpoints[i]) && u.error == None && u.result == None
  {
    forall i | 0 <= i < |rest|
      ensures var u := ([first] + rest)[i];
        u.status == Started && u.progress == Some(Checkpoints[i]) && u.error == None && u.result == None
    {
      if i > 0 { assert ([first] + rest)[i] == rest[i - 1]; }
    }
  }

  /** The repository id the run goes on with, when it gets one. */
  function RunRepoId(extracted: Result<RepoUtils.RepoInfo>, env: Environment): Option<string>
  {
    if extracted.Ok? && env.existingRepo.Ok? then
      if env.existingRepo.value.Some? then env.existingRepo.value
      else if env.createdRepo.Ok? then Some(env.createdRepo.value)
      else None
    else None
  }

  /** The run is the first checkpoint, then either an immediate FAILURE or
      the updates after the repository id. */
  lemma AnalysisUpdatesSplit(githubUrl: string, extracted: Result<RepoUtils.RepoInfo>, env: Environment)
    ensures var us := AnalysisUpdates(githubUrl, extracted, env);
      var first := Progress("Extracting repository information", 10, None);
      && (RunRepoId(extracted, env).None? ==> |us| == 2 && us[0] == first && us[1].status == Failed
                                               && Terminal(us[1]))
      && (RunRepoId(extracted, env).Some? ==>
            us == [first] + AfterRepo(githubUrl, extracted.value, RunRepoId(extracted, env).value, env))
  {
  }

  /** Every run is well formed: the progress checkpoints increase strictly
      and the run ends in SUCCESS at 100 or in FAILURE. */
  lemma RunIsWellFormed(githubUrl: string, extracted: Result<RepoUtils.RepoInfo>, env: Environment)
    ensures WellFormedRun(AnalysisUpdates(githubUrl, extracted, env))
  {
    AnalysisUpdatesSplit(githubUrl, extracted, env);
    var id := RunRepoId(extracted, env);
    if id.Some? {
      AfterRepoShape(githubUrl, extracted.value, id.value, env);
      StagedRunWellFormed(Progress("Extracting repository information", 10, None),
                          AfterRepo(githubUrl, extracted.value, id.value, env), id.value);
    }
  }

  /** An invalid URL ends the task right after the first checkpoint, with
      the parser's message and no repository information. */
  lemma ExtractFailureEndsRun(githubUrl: string, extracted: Result<RepoUtils.RepoInfo>, env: Environment)
    requires extracted.Err?
    ensures AnalysisUpdates(githubUrl, extracted, env)
      == [Progress("Extracting repository information", 10, None),
          Failure(extracted.error, None)]
  {
  }

  /** The last of a non-empty sequence after a prefix is its own last. */
  lemma LastOfAppend(a: seq<StatusUpdate>, b: seq<StatusUpdate>)
    requires b != []
    ensures (a + b)[|a + b| - 1] == b[|b| - 1]
  {
  }

  function Last(us: seq<StatusUpdate>): StatusUpdate
    requires us != []
  {
    us[|us| - 1]
  }

  lemma AfterAnalysisSucceedsIff(githubUrl: string, info: RepoUtils.RepoInfo, repoId: string, analysisId: string,
                                 content: string, outputFile: string, tree: Option<string>, env: Environment)
    ensures var us := AfterAnalysis(githubUrl, info, repoId, analysisId, content, outputFile, tree, env);
      us != [] && (Last(us).status == Succeeded <==> (content == [] || env.document.Ok?) && env.repositoryUpdate.Ok?)
  {
  }

  lemma AfterProcessingSucceedsIff(githubUrl: string, info: RepoUtils.RepoInfo, repoId: string,
                                   content: string, outputFile: string, tree: Option<string>, env: Environment)
    ensures var us := AfterProcessing(githubUrl, info, repoId, content, outputFile, tree, env);
      us != [] && (Last(us).status == Succeeded <==>
                     env.dumpRead.Ok? && env.analysis.Ok? && (content == [] || env.document.Ok?)
                     && env.repositoryUpdate.Ok?)
  {
    var id := Some(repoId);
    var head := [Progress("Extracting analysis data", 60, id), Progress("Saving analysis to database", 75, id)];
    if env.dumpRead.Ok? && env.analysis.Ok? {
      var rest := AfterAnalysis(githubUrl, info, repoId, env.analysis.value, content, outputFile, tree, env);
      AfterAnalysisSucceedsIff(githubUrl, info, repoId, env.analysis.value, content, outputFile, tree, env);
      LastOfAppend(head, rest);
    }
  }

  lemma AfterRepoSucceedsIff(githubUrl: string, info: RepoUtils.RepoInfo, repoId: string, env: Environment)
    ensures var us := AfterRepo(githubUrl, info, repoId, env);
      us != [] && (Last(us).status == Succeeded <==>
                     && env.setup.Ok? && env.analyzer.AnalyzerSucceeded? && env.dumpRead.Ok? && env.analysis.Ok?
                     && (env.analyzer.content == [] || env.document.Ok?) && env.repositoryUpdate.Ok?)
  {
    var id := Some(repoId);
    var head := [Progress("Initializing repository analyzer", 20, id), Progress("Processing repository with repo2text", 30, id)];
    if env.setup.Ok? && env.analyzer.AnalyzerSucceeded? {
      var a := env.analyzer;
      var rest := AfterProcessing(githubUrl, info, repoId, a.content, a.outputFile, a.treeStructure, env);
      AfterProcessingSucceedsIff(githubUrl, info, repoId, a.content, a.outputFile, a.treeStructure, env);
      LastOfAppend(head, rest);
    }
  }

  /** The run succeeds iff every step outside the AI summary succeeds: the
      summary, the marking of previous summaries and the summary document
      never decide the outcome. */
  lemma SucceedsIff(githubUrl: string, extracted: Result<RepoUtils.RepoInfo>, env: Environment)
    ensures var us := AnalysisUpdates(githubUrl, extracted, env);
      us != [] &&
      (us[|us| - 1].status == Succeeded <==>
        && extracted.Ok?
        && env.existingRepo.Ok?
        && (env.existingRepo.value.Some? || env.createdRepo.Ok?)
        && env.setup.Ok?
        && env.analyzer.AnalyzerSucceeded?
        && env.dumpRead.Ok?
        && env.analysis.Ok?
        && (env.analyzer.content == [] || env.document.Ok?)
        && env.repositoryUpdate.Ok?)
  {
    AnalysisUpdatesSplit(githubUrl, extracted, env);
    var id := RunRepoId(extracted, env);
    if id.Some? {
      var rest := AfterRepo(githubUrl, extracted.value, id.value, env);
      AfterRepoSucceedsIff(githubUrl, extracted.value, id.value, env);
      LastOfAppend([Progress("Extracting repository information", 10, None)], rest);
    }
  }

  /** Two runs with the same statuses and progress values, update by update. */
  predicate SameShape(us: seq<StatusUpdate>, vs: seq<StatusUpdate>)
  {
    |us| == |vs| && forall i :: 0 <= i < |us| ==> us[i].status == vs[i].status && us[i].progress == vs[i].progress
  }

  lemma SameShapeAppend(a: seq<StatusUpdate>, b: seq<StatusUpdate>, c: seq<StatusUpdate>)
    requires SameShape(b, c)
    ensures SameShape(a + b, a + c)
  {
    forall i | |a| <= i < |a + b|
      ensures (a + b)[i].status == (a + c)[i].status && (a + b)[i].progress == (a + c)[i].progress
    {
      assert (a + b)[i] == b[i - |a|] && (a + c)[i] == c[i - |a|];
    }
  }

  /** The environment with other outcomes for the AI summary steps. */
  function WithSummary(env: Environment, summary: SummaryRun, markPrevious: Result<()>, summaryDocument: Result<string>): Environment
  {
    env.(summary := summary, markPrevious := markPrevious, summaryDocument := summaryDocument)
  }

  lemma AfterAnalysisSummaryShape(githubUrl: string, info: RepoUtils.RepoInfo, repoId: string, analysisId: string,
                                  content: string, outputFile: string, tree: Option<string>, env: Environment,
                                  env': Environment)
    requires env' == WithSummary(env, env'.summary, env'.markPrevious, env'.summaryDocument)
    ensures SameShape(AfterAnalysis(githubUrl, info, repoId, analysisId, content, outputFile, tree, env),
                      AfterAnalysis(githubUrl, info, repoId, analysisId, content, outputFile, tree, env'))
  {
  }

  lemma AfterProcessingSummaryShape(githubUrl: string, info: RepoUtils.RepoInfo, repoId: string,
                                    content: string, outputFile: string, tree: Option<string>, env: Environment,
                                    env': Environment)
    requires env' == WithSummary(env, env'.summary, env'.markPrevious, env'.summaryDocument)
    ensures SameShape(AfterProcessing(githubUrl, info, repoId, content, outputFile, tree, env),
                      AfterProcessing(githubUrl, info, repoId, content, outputFile, tree, env'))
  {
    var id := Some(repoId);
    var head := [Progress("Extracting analysis data", 60, id), Progress("Saving analysis to database", 75, id)];
    if env.dumpRead.Ok? && env.analysis.Ok? {
      AfterAnalysisSummaryShape(githubUrl, info, repoId, env.analysis.value, content, outputFile, tree, env, env');
      SameShapeAppend(head, AfterAnalysis(githubUrl, info, repoId, env.analysis.value, content, outputFile, tree, env),
                      AfterAnalysis(githubUrl, info, repoId, env.analysis.value, content, outputFile, tree, env'));
    }
  }

  lemma AfterRepoSummaryShape(githubUrl: string, info: RepoUtils.RepoInfo, repoId: string, env: Environment,
                              env': Environment)
    requires env' == WithSummary(env, env'.summary, env'.markPrevious, env'.summaryDocument)
    ensures SameShape(AfterRepo(githubUrl, info, repoId, env), AfterRepo(githubUrl, info, repoId, env'))
  {
    var id := Some(repoId);
    var head := [Progress("Initializing repository analyzer", 20, id), Progress("Processing repository with repo2text", 30, id)];
    if env.setup.Ok? && env.analyzer.AnalyzerSucceeded? {
      var a := env.analyzer;
      AfterProcessingSummaryShape(githubUrl, info, repoId, a.content, a.outputFile, a.treeStructure, env, env');
      SameShapeAppend(head, AfterProcessing(githubUrl, info, repoId, a.content, a.outputFile, a.treeStructure, env),
                      AfterProcessing(githubUrl, info, repoId, a.content, a.outputFile, a.treeStructure, env'));
    }
  }

  /** Only the AI summary fields of the result depend on the summary step:
      the statuses and progress values of the run are the same whatever the
      summary, the marking of previous summaries and the summary document do. */
  lemma SummaryIsNonFatal(githubUrl: string, extracted: Result<RepoUtils.RepoInfo>, env: Environment, summary: SummaryRun,
                          markPrevious: Result<()>, summaryDocument: Result<string>)
    ensures SameShape(AnalysisUpdates(githubUrl, extracted, env),
                      AnalysisUpdates(githubUrl, extracted, WithSummary(env, summary, markPrevious, summaryDocument)))
  {
    var env' := WithSummary(env, summary, markPrevious, summaryDocument);
    AnalysisUpdatesSplit(githubUrl, extracted, env);
    AnalysisUpdatesSplit(githubUrl, extracted, env');
    assert RunRepoId(extracted, env') == RunRepoId(extracted, env);
    var id := RunRepoId(extracted, env);
    if id.Some? {
      AfterRepoSummaryShape(githubUrl, extracted.value, id.value, env, env');
      SameShapeAppend([Progress("Extracting repository information", 10, None)],
                      AfterRepo(githubUrl, extracted.value, id.value, env), AfterRepo(githubUrl, extracted.value, id.value, env'));
    }
  }

  /** After a FAILURE the record keeps the progress of the last checkpoint
      reached, holds the error, and, for a task `create_task` made, no
      result; `RunIsWellFormed` makes this apply to every run. */
  lemma FailureKeepsLastCheckpoint(us: seq<StatusUpdate>, taskId: string, created: int, now: int)
    requires WellFormedRun(us) && us[|us| - 1].status == Failed
    ensures var r := ApplyAll(Some(NewTask(taskId, created)), taskId, us, now).value;
      && r.status == Failed && r.message == "Analysis failed"
      && r.progress == us[|us| - 2].progress && r.error == us[|us| - 1].error
      && r.result == None
  {
    var n := |us|;
    var start := Some(NewTask(taskId, created));
    var init := us[..n - 2];
    var before := ApplyAll(start, taskId, init, now);
    var mid := Updated(before, taskId, us[n - 2], now);
    LastTwoUpdates(start, taskId, us, now);
    forall i | 0 <= i < |init| ensures init[i].result == None {
      assert init[i] == us[i];
    }
    NoResultBeforeEnd(start, taskId, init, now);
    UpdateMerges(before, taskId, us[n - 2], now);
    UpdateMerges(Some(mid), taskId, us[n - 1], now);
  }

  /** The record after a run of at least two updates, in terms of the last two. */
  lemma LastTwoUpdates(start: Option<TaskRecord>, taskId: string, us: seq<StatusUpdate>, now: int)
    requires |us| >= 2
    ensures var n := |us|;
      ApplyAll(start, taskId, us, now)
        == Some(Updated(Some(Updated(ApplyAll(start, taskId, us[..n - 2], now), taskId, us[n - 2], now)), taskId, us[n - 1], now))
  {
    var n := |us|;
    var init, last := us[..n - 1], us[n - 1];
    var init2, last2 := us[..n - 2], us[n - 2];
    assert init2 + [last2] == init;
    assert init + [last] == us;
    ApplyAllSnoc(start, taskId, init2, last2, now);
    ApplyAllSnoc(start, taskId, init, last, now);
  }

  /** STARTED updates carry no result, so none appears before the end. */
  lemma {:induction false} NoResultBeforeEnd(current: Option<TaskRecord>, taskId: string, us: seq<StatusUpdate>, now: int)
    requires current.Some? && current.value.result == None
    requires forall i :: 0 <= i < |us| ==> us[i].result == None
    ensures ApplyAll(current, taskId, us, now).value.result == None
    decreases |us|
  {
    if us != [] {
      NoResultBeforeEnd(Some(Updated(current, taskId, us[0], now)), taskId, us[1..], now);
    }
  }
}
