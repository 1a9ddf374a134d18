/** The sidebar: which mode the current route is in, the line statistics a
    conversation row shows, the split of conversations into the code and
    chat lists, and the grouping of code conversations by project. */
module AppSidebar {
  import opened Wrappers
  import opened JsStrings
  import opened WorkerApi
  import opened CodeWorkspace

  // ---------------------------------------------------------------------
  // deriveRouteMode
  // ---------------------------------------------------------------------

  datatype Mode = Chat | Code

  /** `deriveRouteMode`. */
  function DeriveRouteMode(pathname: string): (m: Mode)
    ensures StartsWith(pathname, "/code") ==> m == Code
    ensures !StartsWith(pathname, "/code") && (pathname == "/" || StartsWith(pathname, "/chat")) ==> m == Chat
    ensures m == Chat <==> !StartsWith(pathname, "/code") && (pathname == "/" || StartsWith(pathname, "/chat"))
  {
    if StartsWith(pathname, "/code") then Code
    else if pathname == "/" || StartsWith(pathname, "/chat") || StartsWith(pathname, "/chats") then Chat
    else Code
  }

  /** The "/chats" test adds nothing: every path starting with "/chats"
      starts with "/chat". */
  lemma ChatsIsChat(pathname: string)
    requires StartsWith(pathname, "/chats")
    ensures DeriveRouteMode(pathname) == Chat
  {
    assert pathname[..6] == "/chats";
    assert pathname[..5] == "/chat";
    assert pathname[2] == 'h';
  }

  // ---------------------------------------------------------------------
  // getConversationStats
  // ---------------------------------------------------------------------

  /** An untyped field of a row: absent, null, a finite number (integers
      only), a non-finite number, or something else. */
  datatype JsValue = Undefined | Null | Finite(n: int) | NonFinite | Other

  /** The optional statistics fields a conversation row may carry. */
  datatype StatsRow = StatsRow(linesAdded: JsValue, additions: JsValue, linesRemoved: JsValue, deletions: JsValue)

  datatype Stats = Stats(added: nat, removed: nat)

  /** `a ?? b`: the first unless it is null or undefined. */
  function Coalesce(a: JsValue, b: JsValue): JsValue {
    if a.Undefined? || a.Null? then b else a
  }

  /** `getConversationStats`: the newer field names win over the older
      ones; both values must be finite numbers, and each is raised to 0. */
  function GetConversationStats(row: StatsRow): (r: Option<Stats>)
    ensures r.Some? <==> Coalesce(row.linesAdded, row.additions).Finite? && Coalesce(row.linesRemoved, row.deletions).Finite?
    ensures r.Some? ==> (
      && r.value.added == (if Coalesce(row.linesAdded, row.additions).n < 0 then 0 else Coalesce(row.linesAdded, row.additions).n)
      && r.value.removed == (if Coalesce(row.linesRemoved, row.deletions).n < 0 then 0 else Coalesce(row.linesRemoved, row.deletions).n))
  {
    var added := Coalesce(row.linesAdded, row.additions);
    var removed := Coalesce(row.linesRemoved, row.deletions);
    if !(added.Finite? && removed.Finite?) then None
    else Some(Stats(Clamp(added.n), Clamp(removed.n)))
  }

  function Clamp(n: int): nat {
    if n < 0 then 0 else n
  }

  /** A present newer field hides the older one completely, even when the
      newer one is not a number and the older one is. */
  lemma NewerFieldWins(row: StatsRow)
    requires !row.linesAdded.Undefined? && !row.linesAdded.Null?
    ensures GetConversationStats(row).Some? ==> GetConversationStats(row).value.added == Clamp(row.linesAdded.n)
    ensures !row.linesAdded.Finite? ==> GetConversationStats(row).None?
  {
  }

  // ---------------------------------------------------------------------
  // The code and chat lists
  // ---------------------------------------------------------------------

  /** The conversations with the given target, in their order. */
  function WithTarget(cs: seq<Conversation>, target: string): (r: seq<Conversation>)
    ensures |r| <= |cs|
    ensures forall c :: c in r <==> c in cs && c.executionTarget == target
  {
    if cs == [] then []
    else
      var init := WithTarget(cs[..|cs| - 1], target);
      var last := cs[|cs| - 1];
      assert forall c :: c in cs <==> c in cs[..|cs| - 1] || c == last;
      if last.executionTarget == target then init + [last] else init
  }

  function CodeConversations(cs: seq<Conversation>): seq<Conversation> {
    WithTarget(cs, "sandbox")
  }

  function ChatConversations(cs: seq<Conversation>): seq<Conversation> {
    WithTarget(cs, "default")
  }

  predicate KnownTargets(cs: seq<Conversation>) {
    forall i :: 0 <= i < |cs| ==> cs[i].executionTarget == "sandbox" || cs[i].executionTarget == "default"
  }

  /** The two lists split the conversations: no conversation is in both,
      and with the two known targets none is in neither, so the lengths add
      up. */
  lemma {:induction false} CodeChatSplit(cs: seq<Conversation>)
    requires KnownTargets(cs)
    ensures |CodeConversations(cs)| + |ChatConversations(cs)| == |cs|
    ensures forall c :: c in cs ==> (c in CodeConversations(cs) <==> c !in ChatConversations(cs))
  {
    if cs != [] {
      CodeChatSplit(cs[..|cs| - 1]);
    }
  }

  // ---------------------------------------------------------------------
  // Grouping by project
  // ---------------------------------------------------------------------

  /** `new Map(allWorkspaces.map((w) => [w.id, w]))`: a later workspace
      with the same id replaces an earlier one. */
  function WorkspaceMap(ws: seq<Workspace>): (m: map<string, Workspace>)
    ensures forall id :: id in m <==> exists i :: 0 <= i < |ws| && ws[i].id == id
    ensures forall id :: id in m ==> m[id] in ws && m[id].id == id
  {
    if ws == [] then map[]
    else
      var last := ws[|ws| - 1];
      var init := ws[..|ws| - 1];
      var m := WorkspaceMap(init)[last.id := last];
      assert forall i :: 0 <= i < |ws| - 1 ==> ws[i] == init[i];
      m
  }

  function ProjectIds(projects: seq<Project>): set<string> {
    set i | 0 <= i < |projects| :: projects[i].id
  }

  /** The project a code conversation is listed under, or none for the
      "General" group: no workspace id, an unknown workspace, or a
      workspace whose project is not listed. */
  function Placement(c: Conversation, projectIds: set<string>, byId: map<string, Workspace>): (p: Option<string>)
    ensures p.Some? <==> Truthy(c.workspaceId) && c.workspaceId.value in byId && byId[c.workspaceId.value].projectId in projectIds
    ensures p.Some? ==> p.value == byId[c.workspaceId.value].projectId && p.value in projectIds
  {
    if !Truthy(c.workspaceId) then None
    else if c.workspaceId.value !in byId then None
    else
      var w := byId[c.workspaceId.value];
      if w.projectId !in projectIds then None else Some(w.projectId)
  }

  /** The conversations placed under `p` (a project id, or none for
      "General"), in their order. */
  function PlacedUnder(cs: seq<Conversation>, p: Option<string>, projectIds: set<string>, byId: map<string, Workspace>): (r: seq<Conversation>)
    ensures forall c :: c in r <==> c in cs && Placement(c, projectIds, byId) == p
  {
    if cs == [] then []
    else
      var init := PlacedUnder(cs[..|cs| - 1], p, projectIds, byId);
      var last := cs[|cs| - 1];
      assert forall c :: c in cs <==> c in cs[..|cs| - 1] || c == last;
      if Placement(last, projectIds, byId) == p then init + [last] else init
  }

  datatype Group = Group(key: string, caption: string, projectId: Option<string>, rows: seq<Conversation>)

  function ProjectGroup(project: Project, cs: seq<Conversation>, projectIds: set<string>, byId: map<string, Workspace>): Group {
    Group(project.id, project.repo, Some(project.id), PlacedUnder(cs, Some(project.id), projectIds, byId))
  }

  /** The project groups in project order, empty ones dropped unless the
      projects are still loading. */
  function ProjectGroups(projects: seq<Project>, cs: seq<Conversation>, projectIds: set<string>,
                         byId: map<string, Workspace>, loading: bool): (gs: seq<Group>)
    ensures forall g :: g in gs ==> (|g.rows| > 0 || loading) && exists p :: p in projects && g == ProjectGroup(p, cs, projectIds, byId)
  {
    if projects == [] then []
    else
      var init := ProjectGroups(projects[..|projects| - 1], cs, projectIds, byId, loading);
      var g := ProjectGroup(projects[|projects| - 1], cs, projectIds, byId);
      if |g.rows| > 0 || loading then init + [g] else init
  }

  const GENERAL_KEY: string := "general"
  const GENERAL_CAPTION: string := "General"

  /** `groups`: the project groups, then "General" when anything is left
      over. */
  function Groups(projects: seq<Project>, cs: seq<Conversation>, byId: map<string, Workspace>, loading: bool): seq<Group> {
    var ids := ProjectIds(projects);
    var unassigned := PlacedUnder(cs, None, ids, byId);
    ProjectGroups(projects, cs, ids, byId, loading)
      + (if |unassigned| > 0 then [Group(GENERAL_KEY, GENERAL_CAPTION, None, unassigned)] else [])
  }

  /** The loops that compute `groups`: every project gets an empty list,
      each code conversation is pushed onto its project's list or onto
      the unassigned one, then the lists become groups. */
  method BuildGroups(projects: seq<Project>, codeConversations: seq<Conversation>,
                     byId: map<string, Workspace>, isProjectsLoading: bool) returns (groups: seq<Group>)
    ensures groups == Groups(projects, codeConversations, byId, isProjectsLoading)
  {
    var ids := ProjectIds(projects);
    var grouped := EmptyLists(projects);
    var unassigned;
    grouped, unassigned := PushConversations(codeConversations, ids, byId, grouped);
    groups := CollectGroups(projects, codeConversations, ids, byId, isProjectsLoading, grouped);
    if |unassigned| > 0 {
      groups := groups + [Group(GENERAL_KEY, GENERAL_CAPTION, None, unassigned)];
    }
  }

  /** `groupedByProjectId.set(project.id, [])` for every project. */
  method EmptyLists(projects: seq<Project>) returns (grouped: map<string, seq<Conversation>>)
    ensures grouped.Keys == ProjectIds(projects)
    ensures forall k :: k in grouped ==> grouped[k] == []
  {
    grouped := map[];
    for i := 0 to |projects|
      invariant grouped.Keys == ProjectIds(projects[..i])
      invariant forall k :: k in grouped ==> grouped[k] == []
    {
      assert projects[..i + 1] == projects[..i] + [projects[i]];
      grouped := grouped[projects[i].id := []];
    }
    assert projects[..|projects|] == projects;
  }

  /** The loop over the code conversations: each is pushed onto its
      project's list, or onto the unassigned one. */
  method PushConversations(cs: seq<Conversation>, ids: set<string>, byId: map<string, Workspace>,
                           empty: map<string, seq<Conversation>>)
    returns (grouped: map<string, seq<Conversation>>, unassigned: seq<Conversation>)
    requires empty.Keys == ids && forall k :: k in empty ==> empty[k] == []
    ensures grouped.Keys == ids
    ensures forall k :: k in grouped ==> grouped[k] == PlacedUnder(cs, Some(k), ids, byId)
    ensures unassigned == PlacedUnder(cs, None, ids, byId)
  {
    grouped, unassigned := empty, [];
    for i := 0 to |cs|
      invariant grouped.Keys == ids
      invariant forall k :: k in grouped ==> grouped[k] == PlacedUnder(cs[..i], Some(k), ids, byId)
      invariant unassigned == PlacedUnder(cs[..i], None, ids, byId)
    {
      var c := cs[i];
      assert cs[..i + 1][..i] == cs[..i] && cs[..i + 1][i] == c;
      var p := Placement(c, ids, byId);
      if p.None? {
        unassigned := unassigned + [c];
      } else {
        grouped := grouped[p.value := grouped[p.value] + [c]];
      }
    }
    assert cs[..|cs|] == cs;
  }

  /** `projects.map(...).filter(...)`. */
  method CollectGroups(projects: seq<Project>, cs: seq<Conversation>, ids: set<string>, byId: map<string, Workspace>,
                       isProjectsLoading: bool, grouped: map<string, seq<Conversation>>) returns (projectGroups: seq<Group>)
    requires ids == ProjectIds(projects) && grouped.Keys == ids
    requires forall k :: k in grouped ==> grouped[k] == PlacedUnder(cs, Some(k), ids, byId)
    ensures projectGroups == ProjectGroups(projects, cs, ids, byId, isProjectsLoading)
  {
    projectGroups := [];
    for j := 0 to |projects|
      invariant projectGroups == ProjectGroups(projects[..j], cs, ids, byId, isProjectsLoading)
    {
      assert projects[..j + 1][..j] == projects[..j];
      var project := projects[j];
      assert project.id in ids;
      var g := Group(project.id, project.repo, Some(project.id), grouped[project.id]);
      if |g.rows| > 0 || isProjectsLoading {
        projectGroups := projectGroups + [g];
      }
    }
    assert projects[..|projects|] == projects;
  }

  /** Every code conversation is listed, and only under the group its
      placement names: its project's group, or "General". */
  lemma GroupsPlaceEveryConversation(projects: seq<Project>, cs: seq<Conversation>, byId: map<string, Workspace>, loading: bool)
    ensures var ids := ProjectIds(projects);
      forall g, c :: g in Groups(projects, cs, byId, loading) && c in g.rows ==>
        c in cs && Placement(c, ids, byId) == g.projectId
    ensures forall c :: c in cs ==> exists g :: g in Groups(projects, cs, byId, loading) && c in g.rows
  {
    var ids := ProjectIds(projects);
    var gs := Groups(projects, cs, byId, loading);
    var pgs := ProjectGroups(projects, cs, ids, byId, loading);
    forall c | c in cs
      ensures exists g :: g in gs && c in g.rows
    {
      var p := Placement(c, ids, byId);
      if p.None? {
        var general := Group(GENERAL_KEY, GENERAL_CAPTION, None, PlacedUnder(cs, None, ids, byId));
        assert c in general.rows;
        assert general in gs;
      } else {
        var i :| 0 <= i < |projects| && projects[i].id == p.value;
        ProjectGroupKept(projects, cs, ids, byId, loading, i);
        var g := ProjectGroup(projects[i], cs, ids, byId);
        assert c in g.rows;
        assert g in pgs;
        assert g in gs;
      }
    }
  }

  /** A project whose list is non-empty keeps its group. */
  lemma {:induction false} ProjectGroupKept(projects: seq<Project>, cs: seq<Conversation>, ids: set<string>,
                                            byId: map<string, Workspace>, loading: bool, i: nat)
    requires i < |projects| && |ProjectGroup(projects[i], cs, ids, byId).rows| > 0
    ensures ProjectGroup(projects[i], cs, ids, byId) in ProjectGroups(projects, cs, ids, byId, loading)
    decreases |projects|
  {
    var init := projects[..|projects| - 1];
    if i < |projects| - 1 {
      assert projects[i] == init[i];
      ProjectGroupKept(init, cs, ids, byId, loading, i);
    }
  }

  /** "General" comes last, and only when something is unassigned; it is
      the only group without a project. */
  lemma GeneralLast(projects: seq<Project>, cs: seq<Conversation>, byId: map<string, Workspace>, loading: bool)
    ensures var gs := Groups(projects, cs, byId, loading);
      && (forall i :: 0 <= i < |gs| - 1 ==> gs[i].projectId.Some?)
      && ((exists c :: c in cs && Placement(c, ProjectIds(projects), byId).None?) <==>
            (gs != [] && gs[|gs| - 1].projectId.None?))
  {
    var ids := ProjectIds(projects);
    var gs := Groups(projects, cs, byId, loading);
    var pgs := ProjectGroups(projects, cs, ids, byId, loading);
    assert forall g :: g in pgs ==> g.projectId.Some?;
    var unassigned := PlacedUnder(cs, None, ids, byId);
    if exists c :: c in cs && Placement(c, ids, byId).None? {
      var c :| c in cs && Placement(c, ids, byId).None?;
      assert c in unassigned;
    }
    if |unassigned| == 0 {
      assert gs == pgs;
      if gs != [] {
        assert gs[|gs| - 1] in pgs;
      }
    } else {
      assert unassigned[0] in unassigned;
    }
    forall i | 0 <= i < |gs| - 1
      ensures gs[i].projectId.Some?
    {
      assert gs[i] in pgs;
    }
  }
}
