/**
 * `GET /api/projects` of the portal: the signed-in profile's projects,
 * narrowed by status through the store query, then searched, then cut
 * into pages.
 */
module ProjectsRoute {
  import opened Js
  import opened Api
  import opened NotionData
  import opened NotionLib

  /** The query string. `None` is a parameter that is absent or empty;
      `page` and `limit` are the values `parseInt` reads. */
  datatype ProjectsRequest = ProjectsRequest(
    status: Option<string>, sort: Option<string>, page: Option<int>, limit: Option<int>, search: Option<string>)

  /** `status === 'all' ? null : status` */
  function StatusOption(status: Option<string>): (r: Option<string>)
    ensures r.None? <==> status.None? || status == Some("all")
    ensures r.Some? ==> r == status
  {
    if status == Some("all") then None else status
  }

  /** The store query `getProjects` sends for this request. */
  function ProjectsQueryOf(notionId: string, req: ProjectsRequest): ProjectsQuery {
    GetProjectsQuery(notionId, StatusOption(req.status), Some(StrOr(req.sort, "date_desc")))
  }

  /** `'all'`, like no status, asks for every project of the profile;
      `active` and `completed` pass through to the store's filter; a
      missing sort sorts newest first; at most 100 projects are read. */
  lemma ProjectsQueryChoice(notionId: string, req: ProjectsRequest)
    ensures var q := ProjectsQueryOf(notionId, req);
      && (req.status == Some("all") || req.status.None? ==> q.filter == OfProfile(notionId))
      && (req.status == Some("active") ==> q.filter == OfProfileNotDone(notionId))
      && (req.status == Some("completed") ==> q.filter == OfProfileDone(notionId))
      && (!StrTruthy(req.sort) ==> q.sorts == [Sort(CreatedTime, true)])
      && q.pageSize == 100
  {
  }

  // ---------------------------------------------------------------------
  // Search
  // ---------------------------------------------------------------------

  /** The filter callback for one project and the lower-cased query:
      the document name is tried first; only when it does not match is
      the customer id lower-cased, which throws (`None`) for a numeric
      id. */
  function Matches(p: Project, q: string): Option<bool> {
    if Includes(ToLower(p.documentName), q) then Some(true)
    else match p.customerId
      case IdText(s) => Some(Includes(ToLower(s), q))
      case IdNumber(_) => None
  }

  /** `projects.filter(...)`, or `None` when a callback throws. */
  function Search(ps: seq<Project>, q: string): (r: Option<seq<Project>>)
    ensures r.Some? ==> |r.value| <= |ps|
  {
    if ps == [] then Some([])
    else
      var m, rest := Matches(ps[0], q), Search(ps[1..], q);
      if m.None? || rest.None? then None
      else Some((if m.value then [ps[0]] else []) + rest.value)
  }

  /** A project is kept when its lower-cased name, or its lower-cased
      textual customer id, contains the query. */
  predicate Kept(p: Project, q: string) {
    Includes(ToLower(p.documentName), q) || (p.customerId.IdText? && Includes(ToLower(p.customerId.text), q))
  }

  /** The search fails exactly when some project whose name does not
      match has a numeric customer id; otherwise it keeps exactly the
      projects that match. */
  lemma {:induction false} SearchKeepsMatches(ps: seq<Project>, q: string)
    ensures Search(ps, q).None? <==> exists i :: 0 <= i < |ps| && Matches(ps[i], q).None?
    ensures Search(ps, q).Some? ==> forall p :: p in Search(ps, q).value <==> p in ps && Kept(p, q)
    decreases |ps|
  {
    if ps != [] {
      SearchKeepsMatches(ps[1..], q);
      if Matches(ps[0], q).None? {
        assert Search(ps, q).None?;
      } else if Search(ps[1..], q).None? {
        var i :| 0 <= i < |ps[1..]| && Matches(ps[1..][i], q).None?;
        assert Matches(ps[i + 1], q).None?;
      } else {
        forall i | 0 <= i < |ps| ensures Matches(ps[i], q).Some? {
          if i > 0 {
            assert ps[i] == ps[1..][i - 1];
          }
        }
        assert Matches(ps[0], q) == Some(Kept(ps[0], q));
        assert ps == [ps[0]] + ps[1..];
      }
    }
  }

  /** An empty query matches every project, so searching for it keeps
      the list as it is. */
  lemma {:induction false} SearchEmptyKeepsAll(ps: seq<Project>)
    ensures Search(ps, "") == Some(ps)
    decreases |ps|
  {
    if ps != [] {
      IncludesEmpty(ToLower(ps[0].documentName));
      assert Matches(ps[0], "") == Some(true);
      SearchEmptyKeepsAll(ps[1..]);
      assert Search(ps, "") == Some([ps[0]] + ps[1..]);
      assert [ps[0]] + ps[1..] == ps;
    }
  }

  // ---------------------------------------------------------------------
  // The handler
  // ---------------------------------------------------------------------

  datatype Pagination = Pagination(page: int, limit: int, total: nat, totalPages: JsNumber, hasMore: bool)

  datatype ProjectsPage = ProjectsPage(projects: seq<Project>, pagination: Pagination)

  /** The searched list: unchanged without a query. */
  function Searched(projects: seq<Project>, req: ProjectsRequest): Option<seq<Project>> {
    var search := StrOr(req.search, "");
    if search != "" then Search(projects, ToLower(search)) else Some(projects)
  }

  /** The route, given the authenticated user's profile page id (`None`
      without a user) and the projects `getProjects` returned for
      `ProjectsQueryOf`. */
  function HandleProjects(user: Option<string>, req: ProjectsRequest, projects: seq<Project>): Reply<ProjectsPage> {
    if user.None? then Fail(Unauthorized)
    else
      var found := Searched(projects, req);
      if found.None? then Fail(ServerError)
      else
        var ps, page, limit := found.value, Default(req.page, 1), Default(req.limit, 10);
        var totalPages := CeilDiv(|ps|, limit);
        var start := PageStart(page, limit);
        Ok(200, ProjectsPage(Slice(ps, start, start + limit),
          Pagination(page, limit, |ps|, totalPages, LessThan(page, totalPages))))
  }

  /** Without a user the route answers 401; with one it fails only when
      the search throws, and only with 500. */
  lemma ProjectsOutcome(user: Option<string>, req: ProjectsRequest, projects: seq<Project>)
    ensures user.None? <==> HandleProjects(user, req, projects) == Fail(Unauthorized)
    ensures user.Some? ==>
      (HandleProjects(user, req, projects).Fail? <==> Searched(projects, req).None?)
    ensures HandleProjects(user, req, projects).Fail? ==>
      HandleProjects(user, req, projects).failure in {Unauthorized, ServerError}
    ensures user.Some? && !StrTruthy(req.search) ==> Searched(projects, req) == Some(projects)
  {
  }

  /** The page: `total == |searched|`, `totalPages == ceil(total / limit)`,
      the page is the contiguous run at `(page - 1) * limit` of at most
      `limit` projects, and `hasMore` is `page < totalPages`, which for a
      positive limit means projects remain after this page and for a zero
      limit means there are any projects at all. */
  lemma ProjectsPageShape(user: Option<string>, req: ProjectsRequest, projects: seq<Project>)
    requires user.Some? && Searched(projects, req).Some?
    requires Default(req.page, 1) >= 1 && Default(req.limit, 10) >= 0
    ensures var r := HandleProjects(user, req, projects);
      var ps := Searched(projects, req).value;
      var g := r.data.pagination;
      var start := PageStart(g.page, g.limit);
      && r.Ok? && g.page == Default(req.page, 1) && g.limit == Default(req.limit, 10)
      && g.total == |ps| && g.totalPages == CeilDiv(|ps|, g.limit)
      && |r.data.projects| <= g.limit
      && (start < |ps| ==> r.data.projects == ps[start..if start + g.limit <= |ps| then start + g.limit else |ps|])
      && (start >= |ps| ==> r.data.projects == [])
      && (g.hasMore <==> LessThan(g.page, g.totalPages))
      && (g.limit > 0 ==> (g.hasMore <==> g.page * g.limit < g.total))
      && (g.limit == 0 ==> (g.hasMore <==> g.total > 0))
  {
    var ps := Searched(projects, req).value;
    var page, limit := Default(req.page, 1), Default(req.limit, 10);
    var start := PageStart(page, limit);
    SliceWindow(ps, start, limit);
    if limit > 0 {
      HasMoreMeansMoreLeft(|ps|, page, limit);
    }
  }

  /** The route pages through what one store query returned, so its
      total never exceeds 100, however many projects the profile has. */
  lemma ProjectsSeeOneStorePage(user: Option<string>, req: ProjectsRequest, matching: seq<Project>)
    requires user.Some? && Searched(FirstPage(matching, ProjectsPageSize), req).Some?
    ensures var r := HandleProjects(user, req, FirstPage(matching, ProjectsPageSize));
      r.Ok? && r.data.pagination.total <= ProjectsPageSize && r.data.pagination.total <= |matching|
  {
  }

  /** For a positive limit, `page < ceil(total / limit)` exactly when the
      first `page` pages do not hold every item. */
  lemma HasMoreMeansMoreLeft(total: nat, page: int, limit: int)
    requires limit > 0
    ensures LessThan(page, CeilDiv(total, limit)) <==> page * limit < total
  {
    var c := CeilDiv(total, limit).n;
    if page < c {
      MulNonNegative(c - 1 - page, limit);
      assert (c - 1) * limit - page * limit == (c - 1 - page) * limit;
    } else {
      MulNonNegative(page - c, limit);
      assert page * limit - c * limit == (page - c) * limit;
    }
  }
}
