/** The code workspace provider: the projects and workspaces lists, which
    project and workspace are selected, and the requests it makes when a
    project, a workspace or a conversation is created. Browser storage is a
    parameter (the id stored there, if any); the requests' answers are
    parameters too. */
module CodeWorkspace {
  import opened Wrappers
  import opened JsStrings
  import opened WorkerApi

  datatype Project = Project(id: string, repoUrl: string, repo: string)

  datatype Workspace = Workspace(id: string, projectId: string, kind: string, name: Option<string>)

  function ProjectId(p: Project): string {
    p.id
  }

  function WorkspaceId(w: Workspace): string {
    w.id
  }

  // ---------------------------------------------------------------------
  // upsertById
  // ---------------------------------------------------------------------

  /** `findIndex` on the id: the first row with that id, or -1. */
  function FindIndex<T>(rows: seq<T>, id: string, idOf: T -> string): (k: int)
    ensures -1 <= k < |rows|
    ensures k >= 0 ==> idOf(rows[k]) == id && forall j :: 0 <= j < k ==> idOf(rows[j]) != id
    ensures k == -1 <==> forall j :: 0 <= j < |rows| ==> idOf(rows[j]) != id
  {
    if rows == [] then -1
    else if idOf(rows[0]) == id then 0
    else
      var k := FindIndex(rows[1..], id, idOf);
      if k == -1 then -1 else k + 1
  }

  /** `upsertById`: a row whose id is new goes first; otherwise it takes the
      place of the first row with its id. */
  function UpsertById<T>(existing: seq<T>, next: T, idOf: T -> string): (r: seq<T>)
    ensures FindIndex(existing, idOf(next), idOf) == -1 ==> r == [next] + existing
    ensures var k := FindIndex(existing, idOf(next), idOf);
      k >= 0 ==> (|r| == |existing| && r[k] == next
        && forall j :: 0 <= j < |r| && j != k ==> r[j] == existing[j])
  {
    var k := FindIndex(existing, idOf(next), idOf);
    if k == -1 then [next] + existing else existing[k := next]
  }

  function Ids<T>(rows: seq<T>, idOf: T -> string): set<string> {
    set i | 0 <= i < |rows| :: idOf(rows[i])
  }

  predicate DistinctIds<T>(rows: seq<T>, idOf: T -> string) {
    forall i, j :: 0 <= i < j < |rows| ==> idOf(rows[i]) != idOf(rows[j])
  }

  /** An upsert adds the row's id to the ids and no other, grows the list
      by at most one, and keeps the ids distinct when they were. */
  lemma UpsertIds<T>(existing: seq<T>, next: T, idOf: T -> string)
    ensures var r := UpsertById(existing, next, idOf);
      && Ids(r, idOf) == Ids(existing, idOf) + {idOf(next)}
      && |existing| <= |r| <= |existing| + 1
      && next in r
      && (DistinctIds(existing, idOf) ==> DistinctIds(r, idOf))
  {
    var r := UpsertById(existing, next, idOf);
    var k := FindIndex(existing, idOf(next), idOf);
    if k == -1 {
      assert r[0] == next;
      forall x | x in Ids(existing, idOf)
        ensures x in Ids(r, idOf)
      {
        var i :| 0 <= i < |existing| && idOf(existing[i]) == x;
        assert r[i + 1] == existing[i];
      }
      forall x | x in Ids(r, idOf)
        ensures x in Ids(existing, idOf) + {idOf(next)}
      {
        var i :| 0 <= i < |r| && idOf(r[i]) == x;
        if i > 0 {
          assert r[i] == existing[i - 1];
        }
      }
    } else {
      forall x | x in Ids(existing, idOf)
        ensures x in Ids(r, idOf)
      {
        var i :| 0 <= i < |existing| && idOf(existing[i]) == x;
        if i == k {
          assert idOf(r[k]) == x;
        } else {
          assert r[i] == existing[i];
        }
      }
      assert idOf(r[k]) in Ids(r, idOf);
      forall x | x in Ids(r, idOf)
        ensures x in Ids(existing, idOf)
      {
        var i :| 0 <= i < |r| && idOf(r[i]) == x;
        if i == k {
          assert idOf(existing[k]) == x;
        } else {
          assert r[i] == existing[i];
        }
      }
    }
  }

  /** Upserting the same row twice is upserting it once. */
  lemma UpsertIdempotent<T>(existing: seq<T>, next: T, idOf: T -> string)
    ensures UpsertById(UpsertById(existing, next, idOf), next, idOf) == UpsertById(existing, next, idOf)
  {
    var r := UpsertById(existing, next, idOf);
    var k := FindIndex(existing, idOf(next), idOf);
    if k == -1 {
      assert FindIndex(r, idOf(next), idOf) == 0;
    } else {
      var k' := FindIndex(r, idOf(next), idOf);
      assert k' == k by {
        assert forall j :: 0 <= j < k ==> r[j] == existing[j];
      }
      assert r[k := next] == r;
    }
  }

  // ---------------------------------------------------------------------
  // resolveSelectedId
  // ---------------------------------------------------------------------

  /** `resolveSelectedId`: the current id when it names a row, else the
      stored id when it does, else the first row's id. */
  function ResolveSelectedId<T>(current: Option<string>, stored: Option<string>, rows: seq<T>, idOf: T -> string): (r: Option<string>)
    ensures r.None? <==> rows == []
    ensures r.Some? ==> r.value in Ids(rows, idOf)
    ensures Truthy(current) && current.value in Ids(rows, idOf) ==> r == current
    ensures !(Truthy(current) && current.value in Ids(rows, idOf)) && Truthy(stored) && stored.value in Ids(rows, idOf)
      ==> r == stored
    ensures (!(Truthy(current) && current.value in Ids(rows, idOf)) && !(Truthy(stored) && stored.value in Ids(rows, idOf))
      && rows != []) ==> r == Some(idOf(rows[0]))
  {
    var validIds := Ids(rows, idOf);
    if Truthy(current) && current.value in validIds then current
    else if Truthy(stored) && stored.value in validIds then stored
    else if rows == [] then None
    else Some(idOf(rows[0]))
  }

  /** Once resolved to a non-empty id, the selection stays put: resolving
      again against the same rows keeps it, whatever is stored. */
  lemma ResolveStable<T>(current: Option<string>, stored: Option<string>, stored': Option<string>, rows: seq<T>, idOf: T -> string)
    requires var r := ResolveSelectedId(current, stored, rows, idOf); r.Some? && r.value != ""
    ensures var r := ResolveSelectedId(current, stored, rows, idOf);
      ResolveSelectedId(r, stored', rows, idOf) == r
  {
  }

  // ---------------------------------------------------------------------
  // The workspaces of the selected project
  // ---------------------------------------------------------------------

  function OfProject(all: seq<Workspace>, projectId: string): (r: seq<Workspace>)
    ensures |r| <= |all|
    ensures forall w :: w in r <==> w in all && w.projectId == projectId
  {
    if all == [] then []
    else if all[0].projectId == projectId then [all[0]] + OfProject(all[1..], projectId)
    else OfProject(all[1..], projectId)
  }

  /** `workspaces`: the workspaces of the selected project, none without a
      selected project. */
  function WorkspacesOf(selectedProjectId: Option<string>, all: seq<Workspace>): (r: seq<Workspace>)
    ensures !Truthy(selectedProjectId) ==> r == []
    ensures Truthy(selectedProjectId) ==> forall w :: w in r <==> w in all && w.projectId == selectedProjectId.value
  {
    if Truthy(selectedProjectId) then OfProject(all, selectedProjectId.value) else []
  }

  /** The filter keeps the workspaces' order: it is a subsequence of the
      full list, and filtering twice is filtering once. */
  lemma {:induction false} OfProjectOrdered(all: seq<Workspace>, projectId: string)
    ensures OfProject(OfProject(all, projectId), projectId) == OfProject(all, projectId)
    ensures all == [] ==> OfProject(all, projectId) == []
    ensures all != [] && all[0].projectId == projectId ==> OfProject(all, projectId)[0] == all[0]
  {
    if all != [] {
      OfProjectOrdered(all[1..], projectId);
      if all[0].projectId == projectId {
        var r := OfProject(all, projectId);
        assert r[1..] == OfProject(all[1..], projectId);
      }
    }
  }

  // ---------------------------------------------------------------------
  // The provider's state
  // ---------------------------------------------------------------------

  const REPOSITORY_URL_REQUIRED: string := "Repository URL is required"
  const SELECT_A_PROJECT_FIRST: string := "Select a project first"

  /** The request `createWorkspaceForProject` sends. */
  datatype WorkspaceRequest = WorkspaceRequest(projectId: string, kind: string, name: Option<string>)

  /** The request `createNewConversation` hands on. */
  datatype ConversationRequest = ConversationRequest(title: Option<string>, executionTarget: string, workspaceId: Option<string>)

  class Provider {
    var projects: seq<Project>
    var allWorkspaces: seq<Workspace>
    var selectedProjectId: Option<string>
    var selectedWorkspaceId: Option<string>
    var isProjectsLoading: bool
    var isWorkspacesLoading: bool
    var isCreatingProject: bool
    var isCreatingWorkspace: bool
    var projectError: Option<string>
    var workspaceError: Option<string>

    constructor()
      ensures projects == [] && allWorkspaces == []
      ensures selectedProjectId.None? && selectedWorkspaceId.None?
      ensures isProjectsLoading && isWorkspacesLoading && !isCreatingProject && !isCreatingWorkspace
      ensures projectError.None? && workspaceError.None?
    {
      projects, allWorkspaces := [], [];
      selectedProjectId, selectedWorkspaceId := None, None;
      isProjectsLoading, isWorkspacesLoading := true, true;
      isCreatingProject, isCreatingWorkspace := false, false;
      projectError, workspaceError := None, None;
    }

    function Workspaces(): seq<Workspace>
      reads this
    {
      WorkspacesOf(selectedProjectId, allWorkspaces)
    }

    /** The selected workspace is one of the selected project's, or none. */
    predicate WorkspaceSelectionValid()
      reads this
    {
      selectedWorkspaceId.Some? ==> selectedWorkspaceId.value in Ids(Workspaces(), WorkspaceId)
    }

    /** `refreshProjects`, given what `listProjects` answered. */
    method RefreshProjects(outcome: Result<seq<Project>, Thrown>, stored: Option<string>)
      modifies this
      ensures outcome.Ok? ==> (
        && projects == outcome.value
        && selectedProjectId == ResolveSelectedId(old(selectedProjectId), stored, outcome.value, ProjectId)
        && projectError.None?)
      ensures outcome.Err? ==> (
        && projects == old(projects) && selectedProjectId == old(selectedProjectId)
        && projectError == Some(MessageOr(outcome.error, "Failed to load projects")))
      ensures !isProjectsLoading
      ensures allWorkspaces == old(allWorkspaces) && selectedWorkspaceId == old(selectedWorkspaceId)
      ensures isWorkspacesLoading == old(isWorkspacesLoading) && workspaceError == old(workspaceError)
      ensures isCreatingProject == old(isCreatingProject) && isCreatingWorkspace == old(isCreatingWorkspace)
    {
      isProjectsLoading := true;
      projectError := None;
      match outcome {
        case Ok(rows) =>
          projects := rows;
          selectedProjectId := ResolveSelectedId(selectedProjectId, stored, rows, ProjectId);
        case Err(e) =>
          projectError := Some(MessageOr(e, "Failed to load projects"));
      }
      isProjectsLoading := false;
    }

    /** `refreshWorkspaces`, given what `listWorkspaces` answered. */
    method RefreshWorkspaces(outcome: Result<seq<Workspace>, Thrown>)
      modifies this
      ensures outcome.Ok? ==> allWorkspaces == outcome.value && workspaceError.None?
      ensures outcome.Err? ==> (
        && allWorkspaces == old(allWorkspaces)
        && workspaceError == Some(MessageOr(outcome.error, "Failed to load workspaces")))
      ensures !isWorkspacesLoading
      ensures projects == old(projects) && selectedProjectId == old(selectedProjectId)
      ensures selectedWorkspaceId == old(selectedWorkspaceId)
      ensures isProjectsLoading == old(isProjectsLoading) && projectError == old(projectError)
      ensures isCreatingProject == old(isCreatingProject) && isCreatingWorkspace == old(isCreatingWorkspace)
    {
      isWorkspacesLoading := true;
      workspaceError := None;
      match outcome {
        case Ok(rows) =>
          allWorkspaces := rows;
        case Err(e) =>
          workspaceError := Some(MessageOr(e, "Failed to load workspaces"));
      }
      isWorkspacesLoading := false;
    }

    /** The effect on the selected project and its workspaces: no project,
        no workspace; otherwise the workspace selection is resolved against
        the project's workspaces. */
    method SyncSelectedWorkspace(stored: Option<string>)
      modifies this
      ensures !Truthy(selectedProjectId) ==> selectedWorkspaceId.None?
      ensures Truthy(selectedProjectId) ==>
        selectedWorkspaceId == ResolveSelectedId(old(selectedWorkspaceId), stored, Workspaces(), WorkspaceId)
      ensures WorkspaceSelectionValid()
      ensures projects == old(projects) && allWorkspaces == old(allWorkspaces)
      ensures selectedProjectId == old(selectedProjectId)
      ensures isProjectsLoading == old(isProjectsLoading) && isWorkspacesLoading == old(isWorkspacesLoading)
      ensures isCreatingProject == old(isCreatingProject) && isCreatingWorkspace == old(isCreatingWorkspace)
      ensures projectError == old(projectError) && workspaceError == old(workspaceError)
    {
      if !Truthy(selectedProjectId) {
        selectedWorkspaceId := None;
        return;
      }
      selectedWorkspaceId := ResolveSelectedId(selectedWorkspaceId, stored, Workspaces(), WorkspaceId);
    }

    /** `createProjectFromRepoUrl`: a blank URL is refused before anything
        changes; otherwise the trimmed URL is sent and the answer is
        handled by `ReceiveProject`. Returns the URL sent, if any, and the
        outcome. */
    method CreateProjectFromRepoUrl(repoUrl: string, answer: Result<Project, Thrown>)
      returns (sent: Option<string>, r: Result<Project, Thrown>)
      modifies this
      ensures AllWhitespace(repoUrl) ==> sent.None? && r == Err(PlainError(REPOSITORY_URL_REQUIRED))
      ensures AllWhitespace(repoUrl) ==> unchanged(this)
      ensures !AllWhitespace(repoUrl) ==> sent == Some(Trim(repoUrl)) && r == answer
      ensures !AllWhitespace(repoUrl) && answer.Ok? ==> (
        && projects == UpsertById(old(projects), answer.value, ProjectId)
        && selectedProjectId == Some(answer.value.id) && projectError.None?)
      ensures !AllWhitespace(repoUrl) && answer.Err? ==> (
        && projects == old(projects) && selectedProjectId == old(selectedProjectId)
        && projectError == Some(MessageOr(answer.error, "Failed to create project")))
      ensures !AllWhitespace(repoUrl) ==> !isCreatingProject
      ensures allWorkspaces == old(allWorkspaces) && selectedWorkspaceId == old(selectedWorkspaceId)
      ensures isProjectsLoading == old(isProjectsLoading) && isWorkspacesLoading == old(isWorkspacesLoading)
      ensures isCreatingWorkspace == old(isCreatingWorkspace) && workspaceError == old(workspaceError)
    {
      TrimEmptyIff(repoUrl);
      var trimmed := Trim(repoUrl);
      if |trimmed| == 0 {
        return None, Err(PlainError(REPOSITORY_URL_REQUIRED));
      }
      sent := Some(trimmed);
      ReceiveProject(answer);
      r := answer;
    }

    /** The part of `createProjectFromRepoUrl` after the request: the
        created project is upserted and selected, a failure becomes the
        project error; the creating flag is up meanwhile and down after. */
    method ReceiveProject(answer: Result<Project, Thrown>)
      modifies this
      ensures answer.Ok? ==> (
        && projects == UpsertById(old(projects), answer.value, ProjectId)
        && selectedProjectId == Some(answer.value.id) && projectError.None?)
      ensures answer.Err? ==> (
        && projects == old(projects) && selectedProjectId == old(selectedProjectId)
        && projectError == Some(MessageOr(answer.error, "Failed to create project")))
      ensures !isCreatingProject
      ensures allWorkspaces == old(allWorkspaces) && selectedWorkspaceId == old(selectedWorkspaceId)
      ensures isProjectsLoading == old(isProjectsLoading) && isWorkspacesLoading == old(isWorkspacesLoading)
      ensures isCreatingWorkspace == old(isCreatingWorkspace) && workspaceError == old(workspaceError)
    {
      isCreatingProject := true;
      projectError := None;
      match answer {
        case Ok(project) =>
          projects := UpsertById(projects, project, ProjectId);
          selectedProjectId := Some(project.id);
        case Err(e) =>
          projectError := Some(MessageOr(e, "Failed to create project"));
      }
      isCreatingProject := false;
    }

    /** `createWorkspaceForProject`: the project is the one given, else the
        selected one, and there must be one, or nothing changes. The kind
        defaults to "cloud". Returns the request sent, if any, and the
        outcome. */
    method CreateWorkspaceForProject(projectId: Option<string>, kind: Option<string>, name: Option<string>,
                                     answer: Result<Workspace, Thrown>)
      returns (sent: Option<WorkspaceRequest>, r: Result<Workspace, Thrown>)
      modifies this
      ensures var pid := if projectId.Some? then projectId else old(selectedProjectId);
        && (!Truthy(pid) ==> sent.None? && r == Err(PlainError(SELECT_A_PROJECT_FIRST)) && unchanged(this))
        && (Truthy(pid) ==> ReceivedWorkspace(pid.value, WorkspaceRequest(pid.value, kind.GetOr("cloud"), name), answer,
                                              sent, r, old(allWorkspaces), old(selectedProjectId), old(selectedWorkspaceId)))
      ensures projects == old(projects) && projectError == old(projectError)
      ensures isProjectsLoading == old(isProjectsLoading) && isWorkspacesLoading == old(isWorkspacesLoading)
      ensures isCreatingProject == old(isCreatingProject)
    {
      var pid := if projectId.Some? then projectId else selectedProjectId;
      if !Truthy(pid) {
        return None, Err(PlainError(SELECT_A_PROJECT_FIRST));
      }
      sent, r := SendWorkspace(WorkspaceRequest(pid.value, kind.GetOr("cloud"), name), answer);
    }

    /** What `createWorkspaceForProject` leaves behind once a project is
        known: a project id that is not a UUID is refused by the request
        before anything is sent and recorded like any other failure; a
        created workspace is upserted and selected together with its
        project; a failed request becomes the workspace error. */
    predicate ReceivedWorkspace(pid: string, request: WorkspaceRequest, answer: Result<Workspace, Thrown>,
                                sent: Option<WorkspaceRequest>, r: Result<Workspace, Thrown>,
                                oldWorkspaces: seq<Workspace>, oldProject: Option<string>, oldWorkspace: Option<string>)
      reads this
    {
      && !isCreatingWorkspace
      && (!IsUuidText(pid) ==> (
            && sent.None? && r == Err(PlainError(Invalid("project ID")))
            && workspaceError == Some(Invalid("project ID"))
            && allWorkspaces == oldWorkspaces && selectedProjectId == oldProject
            && selectedWorkspaceId == oldWorkspace))
      && (IsUuidText(pid) ==> sent == Some(request) && r == answer)
      && (IsUuidText(pid) && answer.Ok? ==> (
            && allWorkspaces == UpsertById(oldWorkspaces, answer.value, WorkspaceId)
            && selectedProjectId == Some(pid) && selectedWorkspaceId == Some(answer.value.id)
            && workspaceError.None?))
      && (IsUuidText(pid) && answer.Err? ==> (
            && allWorkspaces == oldWorkspaces && selectedProjectId == oldProject
            && selectedWorkspaceId == oldWorkspace
            && workspaceError == Some(MessageOr(answer.error, "Failed to create workspace"))))
    }

    /** The request of `createWorkspaceForProject` and what follows it. */
    method SendWorkspace(request: WorkspaceRequest, answer: Result<Workspace, Thrown>)
      returns (sent: Option<WorkspaceRequest>, r: Result<Workspace, Thrown>)
      modifies this
      ensures ReceivedWorkspace(request.projectId, request, answer, sent, r,
                                old(allWorkspaces), old(selectedProjectId), old(selectedWorkspaceId))
      ensures projects == old(projects) && projectError == old(projectError)
      ensures isProjectsLoading == old(isProjectsLoading) && isWorkspacesLoading == old(isWorkspacesLoading)
      ensures isCreatingProject == old(isCreatingProject)
    {
      var check := AssertUuid(request.projectId, "project ID");
      if check.Err? {
        isCreatingWorkspace := true;
        workspaceError := Some(check.error);
        isCreatingWorkspace := false;
        return None, Err(PlainError(check.error));
      }
      sent := Some(request);
      ReceiveWorkspace(request.projectId, answer);
      r := answer;
    }

    /** The part of `createWorkspaceForProject` after the request. */
    method ReceiveWorkspace(pid: string, answer: Result<Workspace, Thrown>)
      modifies this
      ensures answer.Ok? ==> (
        && allWorkspaces == UpsertById(old(allWorkspaces), answer.value, WorkspaceId)
        && selectedProjectId == Some(pid) && selectedWorkspaceId == Some(answer.value.id)
        && workspaceError.None?)
      ensures answer.Err? ==> (
        && allWorkspaces == old(allWorkspaces) && selectedProjectId == old(selectedProjectId)
        && selectedWorkspaceId == old(selectedWorkspaceId)
        && workspaceError == Some(MessageOr(answer.error, "Failed to create workspace")))
      ensures !isCreatingWorkspace
      ensures projects == old(projects) && projectError == old(projectError)
      ensures isProjectsLoading == old(isProjectsLoading) && isWorkspacesLoading == old(isWorkspacesLoading)
      ensures isCreatingProject == old(isCreatingProject)
    {
      isCreatingWorkspace := true;
      workspaceError := None;
      match answer {
        case Ok(workspace) =>
          allWorkspaces := UpsertById(allWorkspaces, workspace, WorkspaceId);
          selectedProjectId := Some(pid);
          selectedWorkspaceId := Some(workspace.id);
        case Err(e) =>
          workspaceError := Some(MessageOr(e, "Failed to create workspace"));
      }
      isCreatingWorkspace := false;
    }

    /** `createNewConversation`'s defaults: the target is "sandbox" unless
        given; a sandbox conversation without a given workspace goes to the
        selected workspace, else the project's first one; a conversation
        for another target gets no workspace unless one is given. */
    function NewConversationRequest(title: Option<string>, executionTarget: Option<string>, workspaceId: Option<string>): (q: ConversationRequest)
      reads this
      ensures q.title == title
      ensures q.executionTarget == executionTarget.GetOr("sandbox")
      ensures workspaceId.Some? ==> q.workspaceId == workspaceId
      ensures workspaceId.None? && q.executionTarget != "sandbox" ==> q.workspaceId.None?
      ensures workspaceId.None? && q.executionTarget == "sandbox" && selectedWorkspaceId.Some? ==>
        q.workspaceId == selectedWorkspaceId
      ensures workspaceId.None? && q.executionTarget == "sandbox" && selectedWorkspaceId.None? ==>
        q.workspaceId == (if Workspaces() == [] then None else Some(Workspaces()[0].id))
    {
      var target := executionTarget.GetOr("sandbox");
      var ws :=
        if workspaceId.Some? then workspaceId
        else if target != "sandbox" then None
        else if selectedWorkspaceId.Some? then selectedWorkspaceId
        else if Workspaces() == [] then None
        else Some(Workspaces()[0].id);
      ConversationRequest(title, target, ws)
    }

    /** With the workspace selection in sync, a sandbox conversation created
        without an explicit workspace lands in one of the selected project's
        workspaces, or in none when the project has none. */
    lemma DefaultWorkspaceOfProject(title: Option<string>)
      requires WorkspaceSelectionValid()
      ensures var q := NewConversationRequest(title, None, None);
        && q.executionTarget == "sandbox"
        && (q.workspaceId.Some? ==> q.workspaceId.value in Ids(Workspaces(), WorkspaceId))
        && (q.workspaceId.None? <==> selectedWorkspaceId.None? && Workspaces() == [])
    {
      var ws := Workspaces();
      if selectedWorkspaceId.None? && ws != [] {
        assert WorkspaceId(ws[0]) in Ids(ws, WorkspaceId);
      }
    }
  }
}
