/** The CI viewer's fixed runs: three runs keyed by "org/project", each with
    its job registry and its errors, and the lookups the pages make on
    them. */
module MockData {
  import opened Wrappers
  import opened ErrorLine

  datatype ErrorDetail = ErrorDetail(
    id: string, category: Category, location: string, status: string, filename: string)

  datatype JobMeta = JobMeta(key: string, status: string)

  datatype MockRun = MockRun(
    org: string, project: string, run: string, title: string,
    jobs: seq<JobMeta>, errors: seq<ErrorDetail>)

  const DETENT_ERRORS: seq<ErrorDetail> := [
    ErrorDetail("test-0", Error, "packages/healing/src/autofix.ts", "Found", "autofix.ts"),
    ErrorDetail("test-1", Info, "apps/api/src/routes/webhooks.ts", "Fixed", "webhooks.ts"),
    ErrorDetail("test-3", Error, "apps/api/src/lib/scrub-secrets.ts", "Fixed", "scrub-secrets.ts"),
    ErrorDetail("test-4", Error, "packages/parser/src/errors.ts (+2 files)", "Fixed", "errors.ts"),
    ErrorDetail("test-2", Info, "packages/parser/src/__tests__/extract.test.ts", "Found", "extract.test.ts"),
    ErrorDetail("mig-0", Error, "convex/schema.ts", "Healing", "schema.ts"),
    ErrorDetail("mig-1", Warning, "convex/migrations/002_add_indexes.ts", "Healing", "002_add_indexes.ts"),
    ErrorDetail("mig-2", Warning, "convex/migrations/003_relations.ts", "Healing", "003_relations.ts"),
    ErrorDetail("mig-3", Warning, "convex/migrations/004_perf.ts", "Healing", "004_perf.ts"),
    ErrorDetail("mig-4", Info, "convex/migrations/005_cleanup.ts", "Healing", "005_cleanup.ts")
  ]

  const NAVIGATOR_ERRORS: seq<ErrorDetail> := [
    ErrorDetail("lint-0", Error, "apps/navigator/src/lib/session.ts", "Found", "session.ts"),
    ErrorDetail("lint-1", Warning, "apps/navigator/src/middleware.ts", "Found", "middleware.ts"),
    ErrorDetail("lint-2", Info, "apps/navigator/src/hooks/use-auth.ts", "Found", "use-auth.ts"),
    ErrorDetail("build-0", Error, "apps/navigator/src/app/dashboard/page.tsx", "Fixed", "page.tsx"),
    ErrorDetail("build-1", Error, "apps/navigator/src/app/settings/[tab]/page.tsx", "Found", "page.tsx")
  ]

  const HEALER_ERRORS: seq<ErrorDetail> := [
    ErrorDetail("test-0", Error, "packages/healing/src/__tests__/progress.test.ts", "Found", "progress.test.ts"),
    ErrorDetail("test-1", Error, "packages/healing/src/__tests__/stream.test.ts", "Found", "stream.test.ts"),
    ErrorDetail("test-2", Warning, "packages/healing/src/__tests__/timeout.test.ts", "Found", "timeout.test.ts"),
    ErrorDetail("types-0", Error, "packages/healing/src/progress.ts", "Fixed", "progress.ts"),
    ErrorDetail("types-1", Error, "packages/healing/src/stream.ts", "Fixed", "stream.ts")
  ]

  const DETENT_JOBS: seq<JobMeta> := [
    JobMeta("lint", "waiting"), JobMeta("test", "failed"), JobMeta("check-types", "successful"),
    JobMeta("migrations", "healing"), JobMeta("build", "skipped")
  ]

  const NAVIGATOR_JOBS: seq<JobMeta> := [
    JobMeta("lint", "failed"), JobMeta("build", "failed"), JobMeta("check-types", "successful"),
    JobMeta("test", "successful")
  ]

  const HEALER_JOBS: seq<JobMeta> := [
    JobMeta("test", "failed"), JobMeta("check-types", "failed"), JobMeta("lint", "successful"),
    JobMeta("build", "skipped")
  ]

  /** `MOCK_RUNS`, in the insertion order of the `Map` that holds them. */
  const MOCK_RUNS: seq<(string, MockRun)> := [
    ("handleui/detent", MockRun("handleui", "detent", "159",
      "feat(sdk): add SDK and MCP server packages", DETENT_JOBS, DETENT_ERRORS)),
    ("handleui/navigator", MockRun("handleui", "navigator", "42",
      "fix(auth): update session token refresh", NAVIGATOR_JOBS, NAVIGATOR_ERRORS)),
    ("detentsh/detent", MockRun("detentsh", "detent", "87",
      "feat(healer): streaming heal progress", HEALER_JOBS, HEALER_ERRORS))
  ]

  function RunKey(org: string, project: string): string {
    org + "/" + project
  }

  function Runs(): (runs: seq<MockRun>)
    ensures |runs| == |MOCK_RUNS| && forall i :: 0 <= i < |runs| ==> runs[i] == MOCK_RUNS[i].1
  {
    seq(|MOCK_RUNS|, i requires 0 <= i < |MOCK_RUNS| => MOCK_RUNS[i].1)
  }

  /** Every key is the run's own "org/project", and no key repeats. */
  lemma MockRunsKeyed()
    ensures forall i :: 0 <= i < |MOCK_RUNS| ==> MOCK_RUNS[i].0 == RunKey(MOCK_RUNS[i].1.org, MOCK_RUNS[i].1.project)
    ensures forall i, j :: 0 <= i < j < |MOCK_RUNS| ==> MOCK_RUNS[i].0 != MOCK_RUNS[j].0
    ensures forall i :: 0 <= i < |MOCK_RUNS| ==> '/' !in MOCK_RUNS[i].1.org && '/' !in MOCK_RUNS[i].1.project
  {
    KeysAreRunKeys();
    KeysDistinct();
  }

  lemma KeysAreRunKeys()
    ensures forall i :: 0 <= i < |MOCK_RUNS| ==> MOCK_RUNS[i].0 == RunKey(MOCK_RUNS[i].1.org, MOCK_RUNS[i].1.project)
  {
  }

  lemma KeysDistinct()
    ensures forall i, j :: 0 <= i < j < |MOCK_RUNS| ==> MOCK_RUNS[i].0 != MOCK_RUNS[j].0
  {
    assert MOCK_RUNS[0].0[9] != MOCK_RUNS[1].0[9];
    assert MOCK_RUNS[0].0[0] != MOCK_RUNS[2].0[0];
    assert MOCK_RUNS[1].0[0] != MOCK_RUNS[2].0[0];
  }

  /** `Map.get` on the runs: the value of the entry with that key. */
  function Lookup(entries: seq<(string, MockRun)>, key: string): (r: Option<MockRun>)
    ensures r.None? <==> forall i :: 0 <= i < |entries| ==> entries[i].0 != key
    ensures r.Some? ==> exists i :: 0 <= i < |entries| && entries[i] == (key, r.value)
  {
    if entries == [] then None
    else if entries[0].0 == key then Some(entries[0].1)
    else
      var r := Lookup(entries[1..], key);
      if r.Some? then
        var i :| 0 <= i < |entries| - 1 && entries[1..][i] == (key, r.value);
        assert entries[i + 1] == (key, r.value);
        r
      else
        r
  }

  /** A key "a/b" whose parts hold no '/' splits only one way. */
  lemma KeyParts(a: string, b: string, c: string, d: string)
    requires '/' !in a && '/' !in b
    requires a + "/" + b == c + "/" + d
    ensures a == c && b == d
  {
    var k := a + "/" + b;
    assert k[|c|] == (c + "/" + d)[|c|] == '/';
    assert forall i :: 0 <= i < |a| ==> k[i] == a[i];
    assert forall i :: |a| < i < |k| ==> k[i] == b[i - |a| - 1];
    assert |c| == |a|;
    assert a == k[..|a|] == c;
    assert b == k[|a| + 1..] == d;
  }

  /** `getMockRun`: null exactly when "org/project" is not a key; otherwise
      the run of that org and project. */
  function GetMockRun(org: string, project: string): (r: Option<MockRun>)
    ensures r.None? <==> forall i :: 0 <= i < |MOCK_RUNS| ==> MOCK_RUNS[i].0 != RunKey(org, project)
    ensures r.Some? ==> r.value in Runs() && r.value.org == org && r.value.project == project
  {
    var r := Lookup(MOCK_RUNS, RunKey(org, project));
    if r.Some? then
      MockRunsKeyed();
      var i :| 0 <= i < |MOCK_RUNS| && MOCK_RUNS[i] == (RunKey(org, project), r.value);
      KeyParts(r.value.org, r.value.project, org, project);
      r
    else
      r
  }

  /** `getDefaultRun`: the run number of that run, or null. */
  function GetDefaultRun(org: string, project: string): (r: Option<string>)
    ensures r.Some? <==> GetMockRun(org, project).Some?
    ensures r.Some? ==> r.value == GetMockRun(org, project).value.run
  {
    match GetMockRun(org, project)
    case Some(run) => Some(run.run)
    case None => None
  }

  lemma KnownRuns()
    ensures GetDefaultRun("handleui", "detent") == Some("159")
    ensures GetDefaultRun("detentsh", "detent") == Some("87")
    ensures GetDefaultRun("detentsh", "navigator") == None
  {
    FirstRunKnown();
    HealerRunKnown();
    UnknownRun();
  }

  lemma FirstRunKnown()
    ensures GetDefaultRun("handleui", "detent") == Some("159")
  {
  }

  lemma HealerRunKnown()
    ensures GetDefaultRun("detentsh", "detent") == Some("87")
  {
    assert MOCK_RUNS[0].0 != RunKey("detentsh", "detent") by {
      assert MOCK_RUNS[0].0[0] != RunKey("detentsh", "detent")[0];
    }
    assert MOCK_RUNS[1].0 != RunKey("detentsh", "detent") by {
      assert MOCK_RUNS[1].0[0] != RunKey("detentsh", "detent")[0];
    }
    var key := RunKey("detentsh", "detent");
    assert Lookup(MOCK_RUNS[2..], key) == Some(MOCK_RUNS[2].1);
    assert MOCK_RUNS[1..][1..] == MOCK_RUNS[2..];
    assert Lookup(MOCK_RUNS[1..], key) == Some(MOCK_RUNS[2].1);
    assert Lookup(MOCK_RUNS, key) == Some(MOCK_RUNS[2].1);
  }

  lemma UnknownRun()
    ensures GetDefaultRun("detentsh", "navigator") == None
  {
    assert RunKey("detentsh", "navigator")[0] != MOCK_RUNS[0].0[0];
    assert RunKey("detentsh", "navigator")[0] != MOCK_RUNS[1].0[0];
    assert RunKey("detentsh", "navigator")[9] != MOCK_RUNS[2].0[9];
  }

  // ---------------------------------------------------------------------
  // Orgs and projects. A JavaScript `Set` spread into an array keeps the
  // order of first insertion; `AddOnce` and `Distinct` are that.
  // ---------------------------------------------------------------------

  function AddOnce(acc: seq<string>, x: string): seq<string> {
    if x in acc then acc else acc + [x]
  }

  /** The values of `xs`, each once, in the order they first appear. */
  function Distinct(xs: seq<string>): (r: seq<string>)
    ensures forall x :: x in r <==> x in xs
    ensures forall i, j :: 0 <= i < j < |r| ==> r[i] != r[j]
  {
    if xs == [] then [] else AddOnce(Distinct(xs[..|xs| - 1]), xs[|xs| - 1])
  }

  function Orgs(runs: seq<MockRun>): seq<string> {
    seq(|runs|, i requires 0 <= i < |runs| => runs[i].org)
  }

  function ProjectsOf(runs: seq<MockRun>, org: string): seq<string> {
    if runs == [] then []
    else
      var last := runs[|runs| - 1];
      ProjectsOf(runs[..|runs| - 1], org) + (if last.org == org then [last.project] else [])
  }

  /** `getAllOrgs`: every run's org, once each, in run order. */
  method GetAllOrgs() returns (orgs: seq<string>)
    ensures orgs == Distinct(Orgs(Runs()))
  {
    var runs := Runs();
    orgs := [];
    for i := 0 to |runs|
      invariant orgs == Distinct(Orgs(runs[..i]))
    {
      assert Orgs(runs[..i + 1])[..i] == Orgs(runs[..i]);
      orgs := AddOnce(orgs, runs[i].org);
    }
    assert runs[..|runs|] == runs;
  }

  /** `getProjectsForOrg`: the projects of that org's runs, once each, in run
      order. */
  method GetProjectsForOrg(org: string) returns (projects: seq<string>)
    ensures projects == Distinct(ProjectsOf(Runs(), org))
  {
    var runs := Runs();
    projects := [];
    for i := 0 to |runs|
      invariant projects == Distinct(ProjectsOf(runs[..i], org))
    {
      assert runs[..i + 1][..i] == runs[..i];
      if runs[i].org == org {
        assert ProjectsOf(runs[..i + 1], org) == ProjectsOf(runs[..i], org) + [runs[i].project];
        projects := AddOnce(projects, runs[i].project);
      } else {
        assert ProjectsOf(runs[..i + 1], org) == ProjectsOf(runs[..i], org);
      }
    }
    assert runs[..|runs|] == runs;
  }

  /** A project is listed for an org exactly when some run of that org has
      it; an org with no run lists nothing. */
  lemma {:induction false} ProjectsOfMembers(runs: seq<MockRun>, org: string, project: string)
    ensures project in ProjectsOf(runs, org) <==> exists run :: run in runs && run.org == org && run.project == project
  {
    if runs != [] {
      var init := runs[..|runs| - 1];
      ProjectsOfMembers(init, org, project);
      assert runs == init + [runs[|runs| - 1]];
      if project in ProjectsOf(init, org) {
        var run :| run in init && run.org == org && run.project == project;
        assert run in runs;
      }
    }
  }

  lemma {:induction false} UnknownOrgHasNoProjects(runs: seq<MockRun>, org: string)
    requires forall run :: run in runs ==> run.org != org
    ensures ProjectsOf(runs, org) == []
  {
    if runs != [] {
      UnknownOrgHasNoProjects(runs[..|runs| - 1], org);
    }
  }

  lemma KnownOrgs()
    ensures Distinct(Orgs(Runs())) == ["handleui", "detentsh"]
  {
    var o := Orgs(Runs());
    assert o == ["handleui", "handleui", "detentsh"];
    assert o[..2][..1] == o[..1] == ["handleui"];
    assert Distinct(o[..1]) == ["handleui"];
    assert Distinct(o[..2]) == ["handleui"];
  }

  // ---------------------------------------------------------------------
  // From an error id to the job it belongs to.
  // ---------------------------------------------------------------------

  /** `id.split("-")[0]`: the text before the first '-', or the whole id. */
  function TextBeforeDash(id: string): (p: string)
    ensures |p| <= |id| && p == id[..|p|]
    ensures '-' !in p
    ensures |p| < |id| ==> id[|p|] == '-'
  {
    if id == [] || id[0] == '-' then [] else [id[0]] + TextBeforeDash(id[1..])
  }

  /** `errorIdToJobKey` as the source writes it: the text before the first
      '-', with "mig" renamed to "migrations". */
  function ErrorIdToJobKeyAsWritten(id: string): (key: string)
    ensures TextBeforeDash(id) == "mig" ==> key == "migrations"
    ensures TextBeforeDash(id) != "mig" ==> key == TextBeforeDash(id) && '-' !in key
    ensures '-' !in id && id != "mig" ==> key == id
  {
    var prefix := TextBeforeDash(id);
    if prefix == "mig" then "migrations" else prefix
  }

  /** The "types-…" errors of the healer run name no job of that run: the
      "check-types" job never shows them. */
  lemma TypesErrorsOrphaned()
    ensures ErrorIdToJobKeyAsWritten(HEALER_ERRORS[3].id) == "types"
    ensures forall j :: j in HEALER_JOBS ==> j.key != "types"
  {
    assert TextBeforeDash("types-0") == "types" by {
      assert "types-0"[5] == '-';
      assert "types-0"[..5] == "types";
    }
  }

  /** `errorIdToJobKey` with the "types" prefix mapped to its job, as "mig"
      is. */
  function ErrorIdToJobKey(id: string): (key: string)
    ensures TextBeforeDash(id) == "mig" ==> key == "migrations"
    ensures TextBeforeDash(id) == "types" ==> key == "check-types"
    ensures TextBeforeDash(id) != "mig" && TextBeforeDash(id) != "types" ==> key == TextBeforeDash(id) && '-' !in key
    ensures '-' !in id && id != "mig" && id != "types" ==> key == id
  {
    var prefix := TextBeforeDash(id);
    if prefix == "mig" then "migrations"
    else if prefix == "types" then "check-types"
    else prefix
  }

  predicate HasJob(jobs: seq<JobMeta>, key: string) {
    exists j :: j in jobs && j.key == key
  }

  /** An id made of a job prefix, a '-' and anything at all has that
      prefix. */
  lemma {:induction false} PrefixOfId(prefix: string, rest: string)
    requires '-' !in prefix
    ensures TextBeforeDash(prefix + "-" + rest) == prefix
  {
    if prefix != [] {
      assert (prefix + "-" + rest)[1..] == prefix[1..] + "-" + rest;
      PrefixOfId(prefix[1..], rest);
    }
  }

  /** The error at `i` has id `prefix-d` for one digit `d`. */
  lemma IdWithPrefix(errors: seq<ErrorDetail>, i: nat, prefix: string)
    requires i < |errors| && '-' !in prefix
    requires |errors[i].id| == |prefix| + 2 && errors[i].id[..|prefix| + 1] == prefix + "-"
    ensures TextBeforeDash(errors[i].id) == prefix
  {
    var d := [errors[i].id[|prefix| + 1]];
    assert errors[i].id == prefix + "-" + d;
    PrefixOfId(prefix, d);
  }

  lemma DetentErrorsHaveJobs()
    ensures forall i :: 0 <= i < |DETENT_ERRORS| ==> HasJob(DETENT_JOBS, ErrorIdToJobKey(DETENT_ERRORS[i].id))
  {
    forall i | 0 <= i < |DETENT_ERRORS| ensures HasJob(DETENT_JOBS, ErrorIdToJobKey(DETENT_ERRORS[i].id)) {
      if i < 5 {
        IdWithPrefix(DETENT_ERRORS, i, "test");
        assert DETENT_JOBS[1] in DETENT_JOBS;
      } else {
        IdWithPrefix(DETENT_ERRORS, i, "mig");
        assert DETENT_JOBS[3] in DETENT_JOBS;
      }
    }
  }

  lemma NavigatorErrorsHaveJobs()
    ensures forall i :: 0 <= i < |NAVIGATOR_ERRORS| ==> HasJob(NAVIGATOR_JOBS, ErrorIdToJobKey(NAVIGATOR_ERRORS[i].id))
  {
    forall i | 0 <= i < |NAVIGATOR_ERRORS| ensures HasJob(NAVIGATOR_JOBS, ErrorIdToJobKey(NAVIGATOR_ERRORS[i].id)) {
      if i < 3 {
        IdWithPrefix(NAVIGATOR_ERRORS, i, "lint");
        assert NAVIGATOR_JOBS[0] in NAVIGATOR_JOBS;
      } else {
        IdWithPrefix(NAVIGATOR_ERRORS, i, "build");
        assert NAVIGATOR_JOBS[1] in NAVIGATOR_JOBS;
      }
    }
  }

  lemma HealerErrorsHaveJobs()
    ensures forall i :: 0 <= i < |HEALER_ERRORS| ==> HasJob(HEALER_JOBS, ErrorIdToJobKey(HEALER_ERRORS[i].id))
  {
    forall i | 0 <= i < |HEALER_ERRORS| ensures HasJob(HEALER_JOBS, ErrorIdToJobKey(HEALER_ERRORS[i].id)) {
      if i < 3 {
        IdWithPrefix(HEALER_ERRORS, i, "test");
        assert HEALER_JOBS[0] in HEALER_JOBS;
      } else {
        IdWithPrefix(HEALER_ERRORS, i, "types");
        assert HEALER_JOBS[1] in HEALER_JOBS;
      }
    }
  }

  /** With the correction, every error of every run belongs to a job of
      that run. */
  lemma EveryErrorHasItsJob()
    ensures forall r, i :: 0 <= r < |MOCK_RUNS| && 0 <= i < |MOCK_RUNS[r].1.errors| ==>
      HasJob(MOCK_RUNS[r].1.jobs, ErrorIdToJobKey(MOCK_RUNS[r].1.errors[i].id))
  {
    DetentErrorsHaveJobs();
    NavigatorErrorsHaveJobs();
    HealerErrorsHaveJobs();
  }
}
