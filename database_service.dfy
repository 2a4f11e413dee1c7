/** The work-selection queries of the database service
    (apps/api/app/services/database.py): which repositories still need an
    analysis, an AI summary or description, documents, or a regenerated
    analysis, merged in priority order under a limit. Every Supabase query
    result is an input: the rows of a table in the order the query sorts
    them. */
module DatabaseService {
  import opened Wrappers
  import opened PyStrings

  /** A row of `repositories` (the fields the selection looks at). */
  datatype Repository = Repository(id: string, name: string, repoUrl: string)

  /** A row of `repository_analysis` (the fields the selection looks at). */
  datatype AnalysisRow = AnalysisRow(
    id: string, repositoryId: string,
    aiSummary: Option<string>, description: Option<string>, treeStructure: Option<string>)

  function Ids(rs: seq<Repository>): set<string>
  {
    set r | r in rs :: r.id
  }

  /** No repository is listed twice. */
  predicate UniqueIds(rs: seq<Repository>)
  {
    forall i, j :: 0 <= i < j < |rs| ==> rs[i].id != rs[j].id
  }

  /** `rows[:n]`, and `.limit(n)` of a query. */
  function Take<T>(s: seq<T>, n: nat): (r: seq<T>)
    ensures |r| <= n && |r| <= |s| && r == s[..|r|]
    ensures |s| <= n ==> r == s
    ensures |s| > n ==> |r| == n
  {
    if |s| <= n then s else s[..n]
  }

  /** `.eq("id", repo_id).limit(1)` on `repositories`. */
  function FindRepo(repos: seq<Repository>, id: string): (r: Option<Repository>)
    ensures r.Some? ==> r.value in repos && r.value.id == id
    ensures r.None? ==> id !in Ids(repos)
  {
    if repos == [] then None
    else if repos[0].id == id then Some(repos[0])
    else FindRepo(repos[1..], id)
  }

  // ---------------------------------------------------------------------
  // get_repositories_without_analysis
  // ---------------------------------------------------------------------

  function AnalyzedIds(analyses: seq<AnalysisRow>): set<string>
  {
    set a | a in analyses :: a.repositoryId
  }

  /** The repositories, in order, whose id is in `ids` (when `member`) or
      not in `ids` (otherwise): `.in_("id", ids)` and `.not_.in_("id", ids)`. */
  function Filtered(repos: seq<Repository>, ids: set<string>, member: bool): (r: seq<Repository>)
    ensures forall x :: x in r <==> x in repos && (x.id in ids <==> member)
    ensures UniqueIds(repos) ==> UniqueIds(r)
  {
    if repos == [] then []
    else
      var rest := Filtered(repos[1..], ids, member);
      if (repos[0].id in ids) != member then rest
      else
        assert UniqueIds(repos) ==> forall x :: x in rest ==> x.id != repos[0].id by {
          if UniqueIds(repos) {
            forall x | x in rest ensures x.id != repos[0].id {
              var k :| 0 <= k < |repos[1..]| && repos[1..][k] == x;
              assert repos[k + 1] == x;
            }
          }
        }
        [repos[0]] + rest
  }

  /** `get_repositories_without_analysis(limit)`: the oldest `limit`
      repositories that no analysis row refers to. */
  function WithoutAnalysis(reposAsc: seq<Repository>, analyses: seq<AnalysisRow>, limit: nat): (r: seq<Repository>)
    ensures |r| <= limit
    ensures forall x :: x in r ==> x in reposAsc && x.id !in AnalyzedIds(analyses)
    ensures |r| < limit ==> forall x :: x in reposAsc && x.id !in AnalyzedIds(analyses) ==> x in r
    ensures UniqueIds(reposAsc) ==> UniqueIds(r)
  {
    var all := Filtered(reposAsc, AnalyzedIds(analyses), false);
    var r := Take(all, limit);
    assert UniqueIds(all) ==> UniqueIds(r);
    r
  }

  // ---------------------------------------------------------------------
  // get_repositories_needing_ai_summary_or_description
  // ---------------------------------------------------------------------

  /** The first analysis row of a repository lacks the summary or the description. */
  predicate NeedsAi(row: AnalysisRow)
  {
    Falsy(row.aiSummary) || Falsy(row.description)
  }

  /** Row `i` is the oldest row of its repository. */
  predicate FirstOfRepository(rows: seq<AnalysisRow>, i: int)
    requires 0 <= i < |rows|
  {
    forall j :: 0 <= j < i ==> rows[j].repositoryId != rows[i].repositoryId
  }

  /** Every repository the loop would append, in order, with `seen` the
      repositories already met. */
  function AiCandidates(rows: seq<AnalysisRow>, repos: seq<Repository>, seen: set<string>): seq<Repository>
  {
    if rows == [] then []
    else
      var id := rows[0].repositoryId;
      if id in seen then AiCandidates(rows[1..], repos, seen)
      else
        var found := FindRepo(repos, id);
        (if NeedsAi(rows[0]) && found.Some? then [found.value] else [])
        + AiCandidates(rows[1..], repos, seen + {id})
  }

  /** Row `i` puts repository `x` on the list: its repository was not met
      before (in `seen` or an earlier row), it lacks the summary or the
      description, and `repositories` holds `x` under its id. */
  predicate QualifiesAt(rows: seq<AnalysisRow>, repos: seq<Repository>, seen: set<string>, i: int, x: Repository)
  {
    && 0 <= i < |rows| && rows[i].repositoryId !in seen && FirstOfRepository(rows, i)
    && NeedsAi(rows[i]) && FindRepo(repos, rows[i].repositoryId) == Some(x)
  }

  /** Every repository the loop appends qualifies at some row. */
  lemma {:induction false} AiCandidatesSound(rows: seq<AnalysisRow>, repos: seq<Repository>, seen: set<string>, x: Repository)
    requires x in AiCandidates(rows, repos, seen)
    ensures exists i :: QualifiesAt(rows, repos, seen, i, x)
    decreases |rows|
  {
    var id := rows[0].repositoryId;
    var tail := rows[1..];
    var seen' := if id in seen then seen else seen + {id};
    if x in AiCandidates(tail, repos, seen') {
      AiCandidatesSound(tail, repos, seen', x);
      var i :| QualifiesAt(tail, repos, seen', i, x);
      assert rows[i + 1] == tail[i];
      assert FirstOfRepository(rows, i + 1) by {
        forall j | 0 <= j < i + 1 ensures rows[j].repositoryId != rows[i + 1].repositoryId {
          if j > 0 { assert rows[j] == tail[j - 1]; }
        }
      }
      assert QualifiesAt(rows, repos, seen, i + 1, x);
    } else {
      assert QualifiesAt(rows, repos, seen, 0, x);
    }
  }

  /** Every repository that qualifies at some row is appended. */
  lemma {:induction false} AiCandidatesComplete(rows: seq<AnalysisRow>, repos: seq<Repository>, seen: set<string>, i: int, x: Repository)
    requires QualifiesAt(rows, repos, seen, i, x)
    ensures x in AiCandidates(rows, repos, seen)
    decreases |rows|
  {
    var id := rows[0].repositoryId;
    if i > 0 {
      var tail := rows[1..];
      var seen' := if id in seen then seen else seen + {id};
      assert tail[i - 1] == rows[i];
      assert FirstOfRepository(tail, i - 1) by {
        forall j | 0 <= j < i - 1 ensures tail[j].repositoryId != tail[i - 1].repositoryId {
          assert tail[j] == rows[j + 1];
        }
      }
      assert QualifiesAt(tail, repos, seen', i - 1, x);
      AiCandidatesComplete(tail, repos, seen', i - 1, x);
    }
  }

  /** No repository is appended twice, nor one already seen. */
  lemma {:induction false} AiCandidatesUnique(rows: seq<AnalysisRow>, repos: seq<Repository>, seen: set<string>)
    ensures UniqueIds(AiCandidates(rows, repos, seen))
    ensures forall x :: x in AiCandidates(rows, repos, seen) ==> x.id !in seen
    decreases |rows|
  {
    if rows != [] {
      var id := rows[0].repositoryId;
      if id in seen {
        AiCandidatesUnique(rows[1..], repos, seen);
      } else {
        AiCandidatesUnique(rows[1..], repos, seen + {id});
      }
    }
  }

  /** The loop stops as soon as it holds `limit` repositories, which it
      checks only after an append: a limit of 0 still lets one through. */
  function Cap(limit: nat): nat
  {
    if limit == 0 then 1 else limit
  }

  /** What `get_repositories_needing_ai_summary_or_description(limit)`
      returns for the analysis rows, oldest first. */
  function AiSelection(rowsAsc: seq<AnalysisRow>, repos: seq<Repository>, limit: nat): seq<Repository>
  {
    Take(AiCandidates(rowsAsc, repos, {}), Cap(limit))
  }

  /** `get_repositories_needing_ai_summary_or_description(limit)` over the
      analysis rows, oldest first. */
  method NeedingAiSummaryOrDescription(rowsAsc: seq<AnalysisRow>, repos: seq<Repository>, limit: nat)
    returns (r: seq<Repository>)
    ensures r == AiSelection(rowsAsc, repos, limit)
  {
    r := [];
    var seen: set<string> := {};
    var i := 0;
    while i < |rowsAsc|
      invariant 0 <= i <= |rowsAsc| && |r| < Cap(limit)
      invariant AiCandidates(rowsAsc, repos, {}) == r + AiCandidates(rowsAsc[i..], repos, seen)
    {
      var analysis := rowsAsc[i];
      var id := analysis.repositoryId;
      AiStep(rowsAsc, repos, seen, i);
      if id in seen {
        i := i + 1;
        continue;
      }
      ghost var rest := AiCandidates(rowsAsc[i + 1..], repos, seen + {id});
      seen := seen + {id};
      if NeedsAi(analysis) {
        var found := FindRepo(repos, id);
        if found.Some? {
          assert r + ([found.value] + rest) == (r + [found.value]) + rest;
          r := r + [found.value];
          if |r| >= Cap(limit) {
            return;
          }
          i := i + 1;
          continue;
        }
      }
      assert [] + rest == rest;
      i := i + 1;
    }
    assert rowsAsc[i..] == [];
  }

  /** One row of the loop, at position `i`. */
  lemma AiStep(rows: seq<AnalysisRow>, repos: seq<Repository>, seen: set<string>, i: nat)
    requires i < |rows|
    ensures var id := rows[i].repositoryId;
      AiCandidates(rows[i..], repos, seen)
        == if id in seen then AiCandidates(rows[i + 1..], repos, seen)
           else (if NeedsAi(rows[i]) && FindRepo(repos, id).Some? then [FindRepo(repos, id).value] else [])
                + AiCandidates(rows[i + 1..], repos, seen + {id})
  {
    assert rows[i..][0] == rows[i] && rows[i..][1..] == rows[i + 1..];
  }

  /** What the function returns: at most `limit` repositories (one when the
      limit is 0), none twice, each with its oldest analysis row lacking the
      summary or the description; fewer than that only when no other
      repository qualifies. */
  lemma NeedingAiProperties(rowsAsc: seq<AnalysisRow>, repos: seq<Repository>, limit: nat)
    ensures var r := AiSelection(rowsAsc, repos, limit);
      && |r| <= Cap(limit) && UniqueIds(r)
      && (forall x :: x in r ==> exists i :: QualifiesAt(rowsAsc, repos, {}, i, x))
      && (|r| < Cap(limit) ==> forall i, x :: QualifiesAt(rowsAsc, repos, {}, i, x) ==> x in r)
  {
    var all := AiCandidates(rowsAsc, repos, {});
    var r := Take(all, Cap(limit));
    AiCandidatesUnique(rowsAsc, repos, {});
    assert UniqueIds(r) by {
      forall a, b | 0 <= a < b < |r| ensures r[a].id != r[b].id {
        assert r[a] == all[a] && r[b] == all[b];
      }
    }
    forall x | x in r
      ensures exists i :: QualifiesAt(rowsAsc, repos, {}, i, x)
    {
      var k :| 0 <= k < |r| && r[k] == x;
      assert all[k] == x;
      AiCandidatesSound(rowsAsc, repos, {}, x);
    }
    if |r| < Cap(limit) {
      forall i, x | QualifiesAt(rowsAsc, repos, {}, i, x)
        ensures x in r
      {
        AiCandidatesComplete(rowsAsc, repos, {}, i, x);
      }
    }
  }

  // ---------------------------------------------------------------------
  // get_repositories_needing_documents_with_ai_ready
  // ---------------------------------------------------------------------

  /** The query's `.not_.is_(..., "null")` filters: rows with both texts set. */
  function AiReadyRows(rows: seq<AnalysisRow>): (r: seq<AnalysisRow>)
    ensures forall a :: a in r <==> a in rows && a.aiSummary.Some? && a.description.Some?
  {
    if rows == [] then []
    else
      (if rows[0].aiSummary.Some? && rows[0].description.Some? then [rows[0]] else [])
      + AiReadyRows(rows[1..])
  }

  /** `value and value.strip()`: set and not blank. */
  predicate HasText(o: Option<string>)
  {
    o.Some? && Strip(o.value) != []
  }

  /** Both the summary and the description are set and not blank. */
  predicate Ready(row: AnalysisRow)
  {
    HasText(row.aiSummary) && HasText(row.description)
  }

  /** Every repository the loop would append; `documented` holds the
      analysis ids some document refers to. A documented row is skipped
      without marking its repository as seen. */
  function DocCandidates(rows: seq<AnalysisRow>, repos: seq<Repository>, documented: set<string>, seen: set<string>, ready: AnalysisRow -> bool): seq<Repository>
  {
    if rows == [] then []
    else
      var id := rows[0].repositoryId;
      if id in seen || rows[0].id in documented then DocCandidates(rows[1..], repos, documented, seen, ready)
      else
        var found := FindRepo(repos, id);
        (if ready(rows[0]) && found.Some? then [found.value] else [])
        + DocCandidates(rows[1..], repos, documented, seen + {id}, ready)
  }

  /** Row `i` is the oldest undocumented row of its repository. */
  predicate FirstUndocumented(rows: seq<AnalysisRow>, documented: set<string>, i: int)
    requires 0 <= i < |rows|
  {
    && rows[i].id !in documented
    && forall j :: 0 <= j < i && rows[j].repositoryId == rows[i].repositoryId ==> rows[j].id in documented
  }

  /** Row `i` puts repository `x` on the documents list. */
  predicate DocQualifiesAt(rows: seq<AnalysisRow>, repos: seq<Repository>, documented: set<string>, seen: set<string>, i: int, x: Repository, ready: AnalysisRow -> bool)
  {
    && 0 <= i < |rows| && rows[i].repositoryId !in seen && FirstUndocumented(rows, documented, i)
    && ready(rows[i])
    && FindRepo(repos, rows[i].repositoryId) == Some(x)
  }

  /** Some row puts repository `x` on the documents list. */
  ghost predicate DocQualifies(rows: seq<AnalysisRow>, repos: seq<Repository>, documented: set<string>, x: Repository, ready: AnalysisRow -> bool)
  {
    exists i :: DocQualifiesAt(rows, repos, documented, {}, i, x, ready)
  }

  /** Every repository the loop appends qualifies at some row. */
  lemma {:induction false} DocCandidatesSound(rows: seq<AnalysisRow>, repos: seq<Repository>, documented: set<string>, seen: set<string>, x: Repository, ready: AnalysisRow -> bool)
    requires x in DocCandidates(rows, repos, documented, seen, ready)
    ensures exists i :: DocQualifiesAt(rows, repos, documented, seen, i, x, ready)
    decreases |rows|
  {
    var id := rows[0].repositoryId;
    var tail := rows[1..];
    var skip := id in seen || rows[0].id in documented;
    var seen' := if skip then seen else seen + {id};
    if x in DocCandidates(tail, repos, documented, seen', ready) {
      DocCandidatesSound(tail, repos, documented, seen', x, ready);
      var i :| DocQualifiesAt(tail, repos, documented, seen', i, x, ready);
      assert rows[i + 1] == tail[i];
      assert FirstUndocumented(rows, documented, i + 1) by {
        forall j | 0 <= j < i + 1 && rows[j].repositoryId == rows[i + 1].repositoryId
          ensures rows[j].id in documented
        {
          if j > 0 { assert rows[j] == tail[j - 1]; }
        }
      }
      assert DocQualifiesAt(rows, repos, documented, seen, i + 1, x, ready);
    } else {
      assert DocQualifiesAt(rows, repos, documented, seen, 0, x, ready);
    }
  }

  /** Every repository that qualifies at some row is appended. */
  lemma {:induction false} DocCandidatesComplete(rows: seq<AnalysisRow>, repos: seq<Repository>, documented: set<string>, seen: set<string>, i: int, x: Repository, ready: AnalysisRow -> bool)
    requires DocQualifiesAt(rows, repos, documented, seen, i, x, ready)
    ensures x in DocCandidates(rows, repos, documented, seen, ready)
    decreases |rows|
  {
    var id := rows[0].repositoryId;
    var tail := rows[1..];
    var skip := id in seen || rows[0].id in documented;
    var seen' := if skip then seen else seen + {id};
    if i > 0 {
      if !skip {
        assert rows[0].repositoryId != rows[i].repositoryId;
      }
      DocQualifiesInTail(rows, repos, documented, seen, seen', i, x, ready);
      DocCandidatesComplete(tail, repos, documented, seen', i - 1, x, ready);
    }
  }

  lemma DocQualifiesInTail(rows: seq<AnalysisRow>, repos: seq<Repository>, documented: set<string>, seen: set<string>, seen': set<string>, i: int, x: Repository, ready: AnalysisRow -> bool)
    requires DocQualifiesAt(rows, repos, documented, seen, i, x, ready) && i > 0
    requires seen' == seen || (seen' == seen + {rows[0].repositoryId} && rows[0].repositoryId != rows[i].repositoryId)
    ensures DocQualifiesAt(rows[1..], repos, documented, seen', i - 1, x, ready)
  {
    var tail := rows[1..];
    assert tail[i - 1] == rows[i];
    forall j | 0 <= j < i - 1 && tail[j].repositoryId == tail[i - 1].repositoryId
      ensures tail[j].id in documented
    {
      assert tail[j] == rows[j + 1];
    }
  }

  /** No repository is appended twice, nor one already seen. */
  lemma {:induction false} DocCandidatesUnique(rows: seq<AnalysisRow>, repos: seq<Repository>, documented: set<string>, seen: set<string>, ready: AnalysisRow -> bool)
    ensures UniqueIds(DocCandidates(rows, repos, documented, seen, ready))
    ensures forall x :: x in DocCandidates(rows, repos, documented, seen, ready) ==> x.id !in seen
    decreases |rows|
  {
    if rows != [] {
      var id := rows[0].repositoryId;
      if id in seen || rows[0].id in documented {
        DocCandidatesUnique(rows[1..], repos, documented, seen, ready);
      } else {
        DocCandidatesUnique(rows[1..], repos, documented, seen + {id}, ready);
      }
    }
  }

  function AsSet(ids: seq<string>): set<string>
  {
    set d | d in ids
  }

  /** What `get_repositories_needing_documents_with_ai_ready(limit)`
      returns for the analysis rows (oldest first) and the analysis ids the
      documents refer to. */
  function DocsSelection(rowsAsc: seq<AnalysisRow>, docAnalysisIds: seq<string>, repos: seq<Repository>, limit: nat): seq<Repository>
  {
    var ready := AiReadyRows(rowsAsc);
    if ready == [] then []
    else Take(DocCandidates(ready, repos, AsSet(docAnalysisIds), {}, Ready), Cap(limit))
  }

  /** `get_repositories_needing_documents_with_ai_ready(limit)`. */
  method NeedingDocumentsWithAiReady(rowsAsc: seq<AnalysisRow>, docAnalysisIds: seq<string>, repos: seq<Repository>, limit: nat)
    returns (r: seq<Repository>)
    ensures r == DocsSelection(rowsAsc, docAnalysisIds, repos, limit)
  {
    var ready := AiReadyRows(rowsAsc);
    if ready == [] {
      return [];
    }
    r := SelectUndocumented(ready, AsSet(docAnalysisIds), repos, limit, Ready);
  }

  /** The loop of `get_repositories_needing_documents_with_ai_ready`. */
  method SelectUndocumented(rows: seq<AnalysisRow>, documented: set<string>, repos: seq<Repository>, limit: nat, ready: AnalysisRow -> bool)
    returns (r: seq<Repository>)
    ensures r == Take(DocCandidates(rows, repos, documented, {}, ready), Cap(limit))
  {
    r := [];
    var seen: set<string> := {};
    var i := 0;
    while i < |rows|
      invariant 0 <= i <= |rows| && |r| < Cap(limit)
      invariant DocCandidates(rows, repos, documented, {}, ready) == r + DocCandidates(rows[i..], repos, documented, seen, ready)
    {
      var analysis := rows[i];
      var id := analysis.repositoryId;
      DocStep(rows, repos, documented, seen, ready, i);
      if id in seen || analysis.id in documented {
        i := i + 1;
        continue;
      }
      ghost var rest := DocCandidates(rows[i + 1..], repos, documented, seen + {id}, ready);
      seen := seen + {id};
      if ready(analysis) {
        var found := FindRepo(repos, id);
        if found.Some? {
          assert r + ([found.value] + rest) == (r + [found.value]) + rest;
          r := r + [found.value];
          if |r| >= Cap(limit) {
            return;
          }
          i := i + 1;
          continue;
        }
      }
      assert [] + rest == rest;
      i := i + 1;
    }
    assert rows[i..] == [];
  }

  /** One row of the loop, at position `i`. */
  lemma DocStep(rows: seq<AnalysisRow>, repos: seq<Repository>, documented: set<string>, seen: set<string>,
                ready: AnalysisRow -> bool, i: nat)
    requires i < |rows|
    ensures var id := rows[i].repositoryId;
      DocCandidates(rows[i..], repos, documented, seen, ready)
        == if id in seen || rows[i].id in documented then DocCandidates(rows[i + 1..], repos, documented, seen, ready)
           else (if ready(rows[i]) && FindRepo(repos, id).Some? then [FindRepo(repos, id).value] else [])
                + DocCandidates(rows[i + 1..], repos, documented, seen + {id}, ready)
  {
    assert rows[i..][0] == rows[i] && rows[i..][1..] == rows[i + 1..];
  }

  /** The first `limit` candidates (one when the limit is 0): none twice,
      each qualifying at some row, and all of them when fewer. */
  lemma DocCandidatesTaken(rows: seq<AnalysisRow>, documented: set<string>, repos: seq<Repository>, limit: nat, ready: AnalysisRow -> bool)
    ensures var r := Take(DocCandidates(rows, repos, documented, {}, ready), Cap(limit));
      && |r| <= Cap(limit) && UniqueIds(r)
      && (forall x :: x in r ==> DocQualifies(rows, repos, documented, x, ready))
      && (|r| < Cap(limit) ==> forall i, x :: DocQualifiesAt(rows, repos, documented, {}, i, x, ready) ==> x in r)
  {
    var all := DocCandidates(rows, repos, documented, {}, ready);
    var r := Take(all, Cap(limit));
    DocCandidatesUnique(rows, repos, documented, {}, ready);
    assert UniqueIds(r) by {
      forall a, b | 0 <= a < b < |r| ensures r[a].id != r[b].id {
        assert r[a] == all[a] && r[b] == all[b];
      }
    }
    forall x | x in r
      ensures DocQualifies(rows, repos, documented, x, ready)
    {
      var k :| 0 <= k < |r| && r[k] == x;
      assert all[k] == x;
      DocCandidatesSound(rows, repos, documented, {}, x, ready);
    }
    if |r| < Cap(limit) {
      forall i, x | DocQualifiesAt(rows, repos, documented, {}, i, x, ready)
        ensures x in r
      {
        DocCandidatesComplete(rows, repos, documented, {}, i, x, ready);
      }
    }
  }

  /** What the function returns: at most `limit` repositories (one when the
      limit is 0), none twice, each the repository of its oldest
      undocumented analysis whose summary and description are both set and
      not blank; fewer only when no other repository qualifies. */
  lemma NeedingDocumentsProperties(rowsAsc: seq<AnalysisRow>, docAnalysisIds: seq<string>, repos: seq<Repository>, limit: nat)
    ensures |DocsSelection(rowsAsc, docAnalysisIds, repos, limit)| <= Cap(limit)
    ensures UniqueIds(DocsSelection(rowsAsc, docAnalysisIds, repos, limit))
    ensures forall x :: x in DocsSelection(rowsAsc, docAnalysisIds, repos, limit) ==>
              DocQualifies(AiReadyRows(rowsAsc), repos, AsSet(docAnalysisIds), x, Ready)
    ensures |DocsSelection(rowsAsc, docAnalysisIds, repos, limit)| < Cap(limit) ==>
              forall i, x :: DocQualifiesAt(AiReadyRows(rowsAsc), repos, AsSet(docAnalysisIds), {}, i, x, Ready) ==>
                x in DocsSelection(rowsAsc, docAnalysisIds, repos, limit)
  {
    var ready := AiReadyRows(rowsAsc);
    if ready != [] {
      DocCandidatesTaken(ready, AsSet(docAnalysisIds), repos, limit, Ready);
    }
  }

  // ---------------------------------------------------------------------
  // get_repositories_with_orphaned_documents
  // ---------------------------------------------------------------------

  const OrphanedError := "Database error getting repositories with orphaned documents: "

  /** The ids of the analysis rows that some document refers to. */
  function ExistingIds(analyses: seq<AnalysisRow>, referenced: set<string>): set<string>
  {
    set a | a in analyses && a.id in referenced :: a.id
  }

  /** The repositories of the referenced analysis rows with no tree structure. */
  function IncompleteRepoIds(analyses: seq<AnalysisRow>, referenced: set<string>): set<string>
  {
    set a | a in analyses && a.id in referenced && Falsy(a.treeStructure) :: a.repositoryId
  }

  /** `get_repositories_with_orphaned_documents(limit)` as written: when a
      document refers to an analysis that does not exist, the warning it
      logs names `logger`, which the method never defines, and the
      resulting NameError is reported as a database error. */
  function OrphanedAsWritten(reposAsc: seq<Repository>, analyses: seq<AnalysisRow>, docAnalysisIds: seq<string>, limit: nat)
    : (r: Result<seq<Repository>>)
    ensures docAnalysisIds == [] ==> r == Ok([])
    ensures r.Err? ==> r.error == OrphanedError + "name 'logger' is not defined"
    ensures r.Ok? ==> |r.value| <= limit && forall x :: x in r.value ==> x in reposAsc
  {
    if docAnalysisIds == [] then Ok([])
    else
      var referenced := AsSet(docAnalysisIds);
      if referenced - ExistingIds(analyses, referenced) != {} then
        Err(OrphanedError + "name 'logger' is not defined")
      else
        Ok(Take(Filtered(reposAsc, IncompleteRepoIds(analyses, referenced), true), limit))
  }

  /** `get_repositories_with_orphaned_documents(limit)` with the warning
      logged: the oldest `limit` repositories having a documented analysis
      without a tree structure. */
  function Orphaned(reposAsc: seq<Repository>, analyses: seq<AnalysisRow>, docAnalysisIds: seq<string>, limit: nat)
    : (r: seq<Repository>)
    ensures |r| <= limit
    ensures forall x :: x in r ==> x in reposAsc && exists a :: a in analyses && a.id in docAnalysisIds
                                                             && Falsy(a.treeStructure) && a.repositoryId == x.id
    ensures |r| < limit ==> forall x, a :: (x in reposAsc && a in analyses && a.id in docAnalysisIds
                                            && Falsy(a.treeStructure) && a.repositoryId == x.id) ==> x in r
    ensures UniqueIds(reposAsc) ==> UniqueIds(r)
  {
    if docAnalysisIds == [] then []
    else
      var all := Filtered(reposAsc, IncompleteRepoIds(analyses, AsSet(docAnalysisIds)), true);
      var r := Take(all, limit);
      assert forall x :: x in r ==> x in all;
      assert UniqueIds(all) ==> UniqueIds(r);
      r
  }

  /** The NameError happens exactly when a document refers to an analysis
      id with no row; otherwise the method returns the intended list. */
  lemma OrphanedFailsIffDangling(reposAsc: seq<Repository>, analyses: seq<AnalysisRow>, docAnalysisIds: seq<string>, limit: nat)
    ensures OrphanedAsWritten(reposAsc, analyses, docAnalysisIds, limit).Err?
            <==> exists d :: d in docAnalysisIds && forall a :: a in analyses ==> a.id != d
    ensures OrphanedAsWritten(reposAsc, analyses, docAnalysisIds, limit).Ok? ==>
              OrphanedAsWritten(reposAsc, analyses, docAnalysisIds, limit).value == Orphaned(reposAsc, analyses, docAnalysisIds, limit)
  {
    var referenced := AsSet(docAnalysisIds);
    if exists d :: d in docAnalysisIds && forall a :: a in analyses ==> a.id != d {
      var d :| d in docAnalysisIds && forall a :: a in analyses ==> a.id != d;
      assert d in referenced - ExistingIds(analyses, referenced);
    } else if docAnalysisIds != [] {
      assert referenced - ExistingIds(analyses, referenced) == {} by {
        forall d | d in referenced ensures d in ExistingIds(analyses, referenced) {
          var a :| a in analyses && a.id == d;
        }
      }
    }
  }

  /** A single document pointing at a deleted analysis makes the method fail. */
  lemma OrphanedDanglingExample()
    ensures OrphanedAsWritten([], [], ["a1"], 10) == Err(OrphanedError + "name 'logger' is not defined")
    ensures Orphaned([], [], ["a1"], 10) == []
  {
    assert "a1" in AsSet(["a1"]) - ExistingIds([], AsSet(["a1"]));
  }

  // ---------------------------------------------------------------------
  // get_repositories_needing_processing
  // ---------------------------------------------------------------------

  /** Appends, in order, each candidate whose id is not yet listed while the
      list holds fewer than `limit` repositories. */
  function MergeInto(acc: seq<Repository>, cands: seq<Repository>, limit: nat): seq<Repository>
    decreases |cands|
  {
    if cands == [] then acc
    else
      var acc' := if cands[0].id !in Ids(acc) && |acc| < limit then acc + [cands[0]] else acc;
      MergeInto(acc', cands[1..], limit)
  }

  lemma IdsSnoc(acc: seq<Repository>, x: Repository)
    ensures Ids(acc + [x]) == Ids(acc) + {x.id}
  {
    assert forall y :: y in acc + [x] <==> y in acc || y == x;
  }

  lemma IdsPrefix(a: seq<Repository>, b: seq<Repository>)
    requires a <= b
    ensures Ids(a) <= Ids(b)
  {
    forall y | y in a ensures y in b {
      var k :| 0 <= k < |a| && a[k] == y;
      assert b[k] == y;
    }
  }

  /** The list only grows, never past `limit`, and only by candidates. */
  lemma {:induction false} MergeGrows(acc: seq<Repository>, cands: seq<Repository>, limit: nat)
    ensures acc <= MergeInto(acc, cands, limit)
    ensures |acc| <= limit ==> |MergeInto(acc, cands, limit)| <= limit
    ensures forall x :: x in MergeInto(acc, cands, limit) ==> x in acc || x in cands
    decreases |cands|
  {
    if cands != [] {
      var acc' := if cands[0].id !in Ids(acc) && |acc| < limit then acc + [cands[0]] else acc;
      MergeGrows(acc', cands[1..], limit);
    }
  }

  /** No id is listed twice. */
  lemma {:induction false} MergeUnique(acc: seq<Repository>, cands: seq<Repository>, limit: nat)
    requires UniqueIds(acc)
    ensures UniqueIds(MergeInto(acc, cands, limit))
    decreases |cands|
  {
    if cands != [] {
      var acc' := if cands[0].id !in Ids(acc) && |acc| < limit then acc + [cands[0]] else acc;
      if acc' != acc {
        assert UniqueIds(acc') by {
          forall a, b | 0 <= a < b < |acc'| ensures acc'[a].id != acc'[b].id {
            if b == |acc| {
              assert acc'[a] in acc;
            }
          }
        }
      }
      MergeUnique(acc', cands[1..], limit);
    }
  }

  /** Below the limit, every candidate's id is listed. */
  lemma {:induction false} MergeComplete(acc: seq<Repository>, cands: seq<Repository>, limit: nat)
    requires |MergeInto(acc, cands, limit)| < limit
    ensures forall x :: x in cands ==> x.id in Ids(MergeInto(acc, cands, limit))
    decreases |cands|
  {
    if cands != [] {
      var acc' := if cands[0].id !in Ids(acc) && |acc| < limit then acc + [cands[0]] else acc;
      var r := MergeInto(acc, cands, limit);
      MergeComplete(acc', cands[1..], limit);
      MergeGrows(acc', cands[1..], limit);
      IdsPrefix(acc', r);
      if acc' != acc {
        IdsSnoc(acc, cands[0]);
      } else {
        IdsPrefix(acc, r);
      }
    }
  }

  /** The merge loop of `get_repositories_needing_processing`. */
  method Merge(acc: seq<Repository>, cands: seq<Repository>, limit: nat) returns (r: seq<Repository>)
    ensures r == MergeInto(acc, cands, limit)
  {
    r := acc;
    var existing := Ids(acc);
    var i := 0;
    while i < |cands|
      invariant 0 <= i <= |cands| && existing == Ids(r)
      invariant MergeInto(acc, cands, limit) == MergeInto(r, cands[i..], limit)
    {
      assert cands[i..][0] == cands[i] && cands[i..][1..] == cands[i + 1..];
      var repo := cands[i];
      if repo.id !in existing && |r| < limit {
        IdsSnoc(r, repo);
        r := r + [repo];
        existing := existing + {repo.id};
      }
      i := i + 1;
    }
    assert cands[i..] == [];
  }

  /** `get_repositories_needing_processing(limit)`: never analysed first,
      then missing AI texts, then missing documents, then incomplete
      documented analyses, each stage asked only for the room left. */
  function NeedingProcessingSpec(reposAsc: seq<Repository>, analysesAsc: seq<AnalysisRow>, docAnalysisIds: seq<string>, limit: nat)
    : seq<Repository>
  {
    FromAi(reposAsc, analysesAsc, docAnalysisIds, limit, WithoutAnalysis(reposAsc, analysesAsc, limit))
  }

  /** Stage 2 onwards, with `s` the list so far. */
  function FromAi(reposAsc: seq<Repository>, analysesAsc: seq<AnalysisRow>, docAnalysisIds: seq<string>, limit: nat, s: seq<Repository>)
    : seq<Repository>
  {
    if |s| >= limit then Take(s, limit)
    else FromDocs(reposAsc, analysesAsc, docAnalysisIds, limit,
                  MergeInto(s, AiSelection(analysesAsc, reposAsc, limit - |s|), limit))
  }

  /** Stage 3 onwards, with `s` the list so far. */
  function FromDocs(reposAsc: seq<Repository>, analysesAsc: seq<AnalysisRow>, docAnalysisIds: seq<string>, limit: nat, s: seq<Repository>)
    : seq<Repository>
  {
    if |s| >= limit then Take(s, limit)
    else FromOrphaned(reposAsc, analysesAsc, docAnalysisIds, limit,
                      MergeInto(s, DocsSelection(analysesAsc, docAnalysisIds, reposAsc, limit - |s|), limit))
  }

  /** Stage 4, with `s` the list so far. */
  function FromOrphaned(reposAsc: seq<Repository>, analysesAsc: seq<AnalysisRow>, docAnalysisIds: seq<string>, limit: nat, s: seq<Repository>)
    : seq<Repository>
  {
    if |s| >= limit then Take(s, limit)
    else Take(MergeInto(s, Orphaned(reposAsc, analysesAsc, docAnalysisIds, limit - |s|), limit), limit)
  }

  method NeedingProcessing(reposAsc: seq<Repository>, analysesAsc: seq<AnalysisRow>, docAnalysisIds: seq<string>, limit: nat)
    returns (r: seq<Repository>)
    ensures r == NeedingProcessingSpec(reposAsc, analysesAsc, docAnalysisIds, limit)
  {
    r := WithoutAnalysis(reposAsc, analysesAsc, limit);
    r := AddAiStage(reposAsc, analysesAsc, docAnalysisIds, limit, r);
  }

  /** Stage 2 onwards: repositories whose oldest analysis lacks AI texts. */
  method AddAiStage(reposAsc: seq<Repository>, analysesAsc: seq<AnalysisRow>, docAnalysisIds: seq<string>, limit: nat,
                    s: seq<Repository>)
    returns (r: seq<Repository>)
    ensures r == FromAi(reposAsc, analysesAsc, docAnalysisIds, limit, s)
  {
    if |s| >= limit {
      return Take(s, limit);
    }
    var ai := NeedingAiSummaryOrDescription(analysesAsc, reposAsc, limit - |s|);
    r := Merge(s, ai, limit);
    assert r == MergeInto(s, AiSelection(analysesAsc, reposAsc, limit - |s|), limit);
    r := AddDocsStage(reposAsc, analysesAsc, docAnalysisIds, limit, r);
  }

  /** Stage 3 onwards: repositories with AI texts but no document. */
  method AddDocsStage(reposAsc: seq<Repository>, analysesAsc: seq<AnalysisRow>, docAnalysisIds: seq<string>, limit: nat,
                      s: seq<Repository>)
    returns (r: seq<Repository>)
    ensures r == FromDocs(reposAsc, analysesAsc, docAnalysisIds, limit, s)
  {
    if |s| >= limit {
      return Take(s, limit);
    }
    var docs := NeedingDocumentsWithAiReady(analysesAsc, docAnalysisIds, reposAsc, limit - |s|);
    r := Merge(s, docs, limit);
    assert r == MergeInto(s, DocsSelection(analysesAsc, docAnalysisIds, reposAsc, limit - |s|), limit);
    r := AddOrphanedStage(reposAsc, analysesAsc, docAnalysisIds, limit, r);
  }

  /** Stage 4: documented repositories whose analysis is incomplete. */
  method AddOrphanedStage(reposAsc: seq<Repository>, analysesAsc: seq<AnalysisRow>, docAnalysisIds: seq<string>, limit: nat,
                          s: seq<Repository>)
    returns (r: seq<Repository>)
    ensures r == FromOrphaned(reposAsc, analysesAsc, docAnalysisIds, limit, s)
  {
    if |s| >= limit {
      return Take(s, limit);
    }
    var orphaned := Orphaned(reposAsc, analysesAsc, docAnalysisIds, limit - |s|);
    r := Merge(s, orphaned, limit);
    r := Take(r, limit);
  }

  /** Some document refers to an analysis id that has no row. */
  predicate Dangling(analyses: seq<AnalysisRow>, docAnalysisIds: seq<string>)
  {
    exists d :: d in docAnalysisIds && forall a :: a in analyses ==> a.id != d
  }

  const ProcessingError := "Database error getting repositories needing processing: "

  /** `get_repositories_needing_processing(limit)` as written: stage 4 calls
      the orphaned-documents query as written, whose failure is re-raised
      with the method's own prefix. */
  function NeedingProcessingAsWritten(reposAsc: seq<Repository>, analysesAsc: seq<AnalysisRow>, docAnalysisIds: seq<string>,
                                      limit: nat)
    : Result<seq<Repository>>
  {
    var s := WithoutAnalysis(reposAsc, analysesAsc, limit);
    if |s| >= limit then Ok(Take(s, limit))
    else
      var s2 := MergeInto(s, AiSelection(analysesAsc, reposAsc, limit - |s|), limit);
      if |s2| >= limit then Ok(Take(s2, limit))
      else
        var s3 := MergeInto(s2, DocsSelection(analysesAsc, docAnalysisIds, reposAsc, limit - |s2|), limit);
        if |s3| >= limit then Ok(Take(s3, limit))
        else match OrphanedAsWritten(reposAsc, analysesAsc, docAnalysisIds, limit - |s3|)
          case Err(e) => Err(ProcessingError + e)
          case Ok(o) => Ok(Take(MergeInto(s3, o, limit), limit))
  }

  /** As written, the method fails only on a dangling document reference,
      with the NameError's message under both prefixes; without one it
      returns the corrected list. */
  lemma NeedingProcessingAsWrittenAgrees(reposAsc: seq<Repository>, analysesAsc: seq<AnalysisRow>,
                                         docAnalysisIds: seq<string>, limit: nat)
    ensures var r := NeedingProcessingAsWritten(reposAsc, analysesAsc, docAnalysisIds, limit);
      && (r.Err? ==> Dangling(analysesAsc, docAnalysisIds)
                     && r.error == ProcessingError + OrphanedError + "name 'logger' is not defined")
      && (r.Ok? ==> r.value == NeedingProcessingSpec(reposAsc, analysesAsc, docAnalysisIds, limit))
      && (!Dangling(analysesAsc, docAnalysisIds) ==> r.Ok?)
  {
    var s := WithoutAnalysis(reposAsc, analysesAsc, limit);
    if |s| < limit {
      var s2 := MergeInto(s, AiSelection(analysesAsc, reposAsc, limit - |s|), limit);
      if |s2| < limit {
        var s3 := MergeInto(s2, DocsSelection(analysesAsc, docAnalysisIds, reposAsc, limit - |s2|), limit);
        if |s3| < limit {
          OrphanedFailsIffDangling(reposAsc, analysesAsc, docAnalysisIds, limit - |s3|);
        }
      }
    }
  }

  /** With nothing to analyse and one document pointing at a deleted
      analysis, the as-written method fails where the corrected one
      returns the empty list. */
  lemma NeedingProcessingDanglingExample()
    ensures NeedingProcessingAsWritten([], [], ["a1"], 10)
         == Err(ProcessingError + OrphanedError + "name 'logger' is not defined")
    ensures NeedingProcessingSpec([], [], ["a1"], 10) == []
  {
    OrphanedDanglingExample();
    NeedingProcessingProperties([], [], ["a1"], 10);
  }

  /** Each category's repositories come from `repositories`. */
  lemma AiSelectionInRepos(analysesAsc: seq<AnalysisRow>, reposAsc: seq<Repository>, limit: nat)
    ensures forall x :: x in AiSelection(analysesAsc, reposAsc, limit) ==> x in reposAsc
  {
    forall x | x in AiSelection(analysesAsc, reposAsc, limit) ensures x in reposAsc {
      NeedingAiProperties(analysesAsc, reposAsc, limit);
      var i :| QualifiesAt(analysesAsc, reposAsc, {}, i, x);
    }
  }

  lemma DocsSelectionInRepos(analysesAsc: seq<AnalysisRow>, docAnalysisIds: seq<string>, reposAsc: seq<Repository>, limit: nat)
    ensures forall x :: x in DocsSelection(analysesAsc, docAnalysisIds, reposAsc, limit) ==> x in reposAsc
  {
    forall x | x in DocsSelection(analysesAsc, docAnalysisIds, reposAsc, limit) ensures x in reposAsc {
      NeedingDocumentsProperties(analysesAsc, docAnalysisIds, reposAsc, limit);
      var i :| DocQualifiesAt(AiReadyRows(analysesAsc), reposAsc, AsSet(docAnalysisIds), {}, i, x, Ready);
    }
  }

  /** What a list within the limit, from `repositories`, keeps through a stage. */
  predicate Sound(reposAsc: seq<Repository>, limit: nat, s: seq<Repository>)
  {
    |s| <= limit && (forall x :: x in s ==> x in reposAsc) && (UniqueIds(reposAsc) ==> UniqueIds(s))
  }

  lemma MergeSound(reposAsc: seq<Repository>, limit: nat, s: seq<Repository>, cands: seq<Repository>)
    requires Sound(reposAsc, limit, s) && forall x :: x in cands ==> x in reposAsc
    ensures Sound(reposAsc, limit, MergeInto(s, cands, limit)) && s <= MergeInto(s, cands, limit)
  {
    MergeGrows(s, cands, limit);
    if UniqueIds(reposAsc) {
      MergeUnique(s, cands, limit);
    }
  }

  lemma FromOrphanedSound(reposAsc: seq<Repository>, analysesAsc: seq<AnalysisRow>, docAnalysisIds: seq<string>, limit: nat, s: seq<Repository>)
    requires Sound(reposAsc, limit, s)
    ensures var r := FromOrphaned(reposAsc, analysesAsc, docAnalysisIds, limit, s); Sound(reposAsc, limit, r) && s <= r
  {
    if |s| < limit {
      MergeSound(reposAsc, limit, s, Orphaned(reposAsc, analysesAsc, docAnalysisIds, limit - |s|));
    }
  }

  lemma FromDocsSound(reposAsc: seq<Repository>, analysesAsc: seq<AnalysisRow>, docAnalysisIds: seq<string>, limit: nat, s: seq<Repository>)
    requires Sound(reposAsc, limit, s)
    ensures var r := FromDocs(reposAsc, analysesAsc, docAnalysisIds, limit, s); Sound(reposAsc, limit, r) && s <= r
  {
    if |s| < limit {
      var cands := DocsSelection(analysesAsc, docAnalysisIds, reposAsc, limit - |s|);
      DocsSelectionInRepos(analysesAsc, docAnalysisIds, reposAsc, limit - |s|);
      MergeSound(reposAsc, limit, s, cands);
      FromOrphanedSound(reposAsc, analysesAsc, docAnalysisIds, limit, MergeInto(s, cands, limit));
    }
  }

  lemma FromAiSound(reposAsc: seq<Repository>, analysesAsc: seq<AnalysisRow>, docAnalysisIds: seq<string>, limit: nat, s: seq<Repository>)
    requires Sound(reposAsc, limit, s)
    ensures var r := FromAi(reposAsc, analysesAsc, docAnalysisIds, limit, s); Sound(reposAsc, limit, r) && s <= r
  {
    if |s| < limit {
      var cands := AiSelection(analysesAsc, reposAsc, limit - |s|);
      AiSelectionInRepos(analysesAsc, reposAsc, limit - |s|);
      MergeSound(reposAsc, limit, s, cands);
      FromDocsSound(reposAsc, analysesAsc, docAnalysisIds, limit, MergeInto(s, cands, limit));
    }
  }

  /** At most `limit` repositories, all from `repositories`, none twice
      when the table's ids are unique, and the never-analysed ones first. */
  lemma NeedingProcessingProperties(reposAsc: seq<Repository>, analysesAsc: seq<AnalysisRow>, docAnalysisIds: seq<string>, limit: nat)
    ensures var r := NeedingProcessingSpec(reposAsc, analysesAsc, docAnalysisIds, limit);
      && |r| <= limit
      && (forall x :: x in r ==> x in reposAsc)
      && (UniqueIds(reposAsc) ==> UniqueIds(r))
      && WithoutAnalysis(reposAsc, analysesAsc, limit) <= r
  {
    FromAiSound(reposAsc, analysesAsc, docAnalysisIds, limit, WithoutAnalysis(reposAsc, analysesAsc, limit));
  }

  // ---------------------------------------------------------------------
  // get_latest_repository_analyses_bulk
  // ---------------------------------------------------------------------

  /** The first row of the repository in `rows` (newest first: its latest analysis). */
  function LatestFor(rows: seq<AnalysisRow>, id: string): (r: Option<AnalysisRow>)
    ensures r.Some? ==> r.value in rows && r.value.repositoryId == id
    ensures r.Some? ==> exists k :: 0 <= k < |rows| && rows[k] == r.value
                                    && forall j :: 0 <= j < k ==> rows[j].repositoryId != id
    ensures r.None? ==> forall a :: a in rows ==> a.repositoryId != id
  {
    if rows == [] then None
    else if rows[0].repositoryId == id then Some(rows[0])
    else
      var rest := LatestFor(rows[1..], id);
      assert rest.Some? ==> forall k :: 0 <= k < |rows| - 1 ==> rows[1..][k] == rows[k + 1];
      rest
  }

  lemma {:induction false} LatestForSnoc(rows: seq<AnalysisRow>, a: AnalysisRow, id: string)
    ensures LatestFor(rows + [a], id) ==
              if LatestFor(rows, id).Some? then LatestFor(rows, id)
              else if a.repositoryId == id then Some(a) else None
    decreases |rows|
  {
    if rows != [] {
      assert (rows + [a])[1..] == rows[1..] + [a];
      LatestForSnoc(rows[1..], a, id);
    }
  }

  /** `get_latest_repository_analyses_bulk(repo_ids)` over the rows of
      those repositories, newest first: each requested id mapped to its
      latest analysis, or None. */
  method LatestAnalysesBulk(repoIds: seq<string>, rowsDesc: seq<AnalysisRow>)
    returns (m: map<string, Option<AnalysisRow>>)
    ensures m.Keys == AsSet(repoIds)
    ensures forall id :: id in m ==> m[id] == LatestFor(rowsDesc, id)
  {
    if repoIds == [] {
      return map[];
    }
    m := map[];
    var k := 0;
    while k < |repoIds|
      invariant 0 <= k <= |repoIds| && m.Keys == AsSet(repoIds[..k])
      invariant forall id :: id in m ==> m[id] == None
    {
      assert AsSet(repoIds[..k + 1]) == AsSet(repoIds[..k]) + {repoIds[k]} by {
        assert repoIds[..k + 1] == repoIds[..k] + [repoIds[k]];
      }
      m := m[repoIds[k] := None];
      k := k + 1;
    }
    assert repoIds[..k] == repoIds;
    var i := 0;
    while i < |rowsDesc|
      invariant 0 <= i <= |rowsDesc| && m.Keys == AsSet(repoIds)
      invariant forall id :: id in m ==> m[id] == LatestFor(rowsDesc[..i], id)
    {
      var row := rowsDesc[i];
      assert rowsDesc[..i + 1] == rowsDesc[..i] + [row];
      forall id | id in m
        ensures LatestFor(rowsDesc[..i + 1], id) ==
                  if LatestFor(rowsDesc[..i], id).Some? then LatestFor(rowsDesc[..i], id)
                  else if row.repositoryId == id then Some(row) else None
      {
        LatestForSnoc(rowsDesc[..i], row, id);
      }
      if row.repositoryId in m && m[row.repositoryId].None? {
        m := m[row.repositoryId := Some(row)];
      }
      i := i + 1;
    }
    assert rowsDesc[..i] == rowsDesc;
  }

  // ---------------------------------------------------------------------
  // upsert_repositories
  // ---------------------------------------------------------------------

  /** A `RepositoryInsert` (the fields the upsert derives from). */
  datatype RepositoryInsert = RepositoryInsert(repoUrl: string, processingStatus: Option<string>)

  /** One row sent to the bulk upsert. */
  datatype UpsertRow = UpsertRow(name: string, repoUrl: string, processingStatus: string)

  const UpsertError := "Database error upserting repositories: "

  /** `repo_url.rstrip("/").split("/")[-1]` without one trailing ".git". */
  function RepoNameFromUrl(url: string): (r: string)
    ensures '/' !in r
  {
    var parts := Split(RStripChar(url, '/'), '/');
    var last := parts[|parts| - 1];
    if EndsWith(last, ".git") then last[..|last| - 4] else last
  }

  /** The name of `…/name.git` is `name`. */
  lemma RepoNameOfGitUrl(base: string, name: string)
    requires '/' !in name
    ensures RepoNameFromUrl(base + "/" + name + ".git") == name
  {
    var last := name + ".git";
    var u := base + ['/'] + last;
    assert base + "/" + name + ".git" == u;
    assert u[|u| - 1] == 't';
    assert RStripChar(u, '/') == u;
    SplitLast(base, '/', last);
    assert EndsWith(last, ".git");
    assert last[..|last| - 4] == name;
  }

  /** A trailing slash does not change the name. */
  lemma RepoNameIgnoresTrailingSlash(url: string)
    ensures RepoNameFromUrl(url + "/") == RepoNameFromUrl(url)
  {
    assert (url + "/")[..|url|] == url;
    assert RStripChar(url + "/", '/') == RStripChar(url, '/');
  }

  /** The rows `upsert_repositories` sends, or the error it raises. */
  method PrepareUpserts(inserts: seq<RepositoryInsert>) returns (r: Result<seq<UpsertRow>>)
    ensures r.Err? <==> exists i :: 0 <= i < |inserts| && inserts[i].repoUrl == []
    ensures r.Err? ==> r.error == UpsertError + "repo_url is required"
    ensures r.Ok? ==> |r.value| == |inserts| && forall i :: 0 <= i < |inserts| ==>
              r.value[i] == UpsertRow(RepoNameFromUrl(inserts[i].repoUrl), inserts[i].repoUrl,
                                      if inserts[i].processingStatus.Some? then inserts[i].processingStatus.value else "pending")
  {
    var rows: seq<UpsertRow> := [];
    var i := 0;
    while i < |inserts|
      invariant 0 <= i <= |inserts| && |rows| == i
      invariant forall j :: 0 <= j < i ==> inserts[j].repoUrl != []
      invariant forall j :: 0 <= j < i ==>
              rows[j] == UpsertRow(RepoNameFromUrl(inserts[j].repoUrl), inserts[j].repoUrl,
                                   if inserts[j].processingStatus.Some? then inserts[j].processingStatus.value else "pending")
    {
      var insert := inserts[i];
      if insert.repoUrl == [] {
        return Err(UpsertError + "repo_url is required");
      }
      var status := if insert.processingStatus.Some? then insert.processingStatus.value else "pending";
      rows := rows + [UpsertRow(RepoNameFromUrl(insert.repoUrl), insert.repoUrl, status)];
      i := i + 1;
    }
    return Ok(rows);
  }

  /** The answer to the bulk upsert: the rows the database returned, or an
      error when it returned none. */
  function UpsertOutcome(returned: seq<Repository>): (r: Result<seq<Repository>>)
    ensures r.Ok? <==> returned != []
    ensures r.Ok? ==> r.value == returned
    ensures r.Err? ==> r.error == UpsertError + "Failed to upsert repositories"
  {
    if returned != [] then Ok(returned) else Err(UpsertError + "Failed to upsert repositories")
  }
}
