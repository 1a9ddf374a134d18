/** The CI viewer's job list: which jobs are visible under the filters,
    the errors grouped by job, what each job row shows, and the effect that
    drops hidden errors from the selection. */
module JobList {
  import opened Wrappers
  import opened ErrorLine
  import opened MockData
  import opened SetUtils
  import opened Selection

  // ---------------------------------------------------------------------
  // Issue counts.
  // ---------------------------------------------------------------------

  datatype Variant = Failure | Waiting | Notice

  /** `categoryToVariant`. */
  function VariantOf(category: Category): Variant {
    match category
    case Error => Failure
    case Warning => Waiting
    case Info => Notice
  }

  function Rank(v: Variant): nat {
    match v
    case Failure => 0
    case Waiting => 1
    case Notice => 2
  }

  datatype IssueCount = IssueCount(count: nat, variant: Variant)

  /** How many of the items have the category. */
  function CountOf(items: seq<ErrorDetail>, category: Category): (n: nat)
    ensures n <= |items|
  {
    if items == [] then 0
    else CountOf(items[..|items| - 1], category) + (if items[|items| - 1].category == category then 1 else 0)
  }

  function Total(counts: seq<IssueCount>): nat {
    if counts == [] then 0 else counts[0].count + Total(counts[1..])
  }

  lemma {:induction false} CountsCoverItems(items: seq<ErrorDetail>)
    ensures CountOf(items, Error) + CountOf(items, Warning) + CountOf(items, Info) == |items|
  {
    if items != [] {
      CountsCoverItems(items[..|items| - 1]);
    }
  }

  function Entry(items: seq<ErrorDetail>, category: Category): seq<IssueCount> {
    var n := CountOf(items, category);
    if n > 0 then [IssueCount(n, VariantOf(category))] else []
  }

  lemma TotalAppend(a: seq<IssueCount>, b: seq<IssueCount>)
    ensures Total(a + b) == Total(a) + Total(b)
  {
    if a != [] {
      assert (a + b)[0] == a[0];
      assert (a + b)[1..] == a[1..] + b;
      TotalAppend(a[1..], b);
    } else {
      assert a + b == b;
    }
  }

  /** `issueCounts`: the entries of the categories Error, Warning and Info,
      in that order; the counts add up to the number of items. */
  function IssueCounts(items: seq<ErrorDetail>): (r: seq<IssueCount>)
    ensures |r| <= 3
    ensures Total(r) == |items|
  {
    var e := Entry(items, Error);
    var w := Entry(items, Warning);
    var n := Entry(items, Info);
    CountsCoverItems(items);
    TotalAppend(e, w);
    TotalAppend(e + w, n);
    e + w + n
  }

  /** The entries of `issueCounts` are ordered Error, Warning, Info, with
      strictly rising ranks. */
  lemma IssueCountsOrdered(items: seq<ErrorDetail>)
    ensures forall i, j :: 0 <= i < j < |IssueCounts(items)| ==>
      Rank(IssueCounts(items)[i].variant) < Rank(IssueCounts(items)[j].variant)
  {
    var e, w, n := Entry(items, Error), Entry(items, Warning), Entry(items, Info);
    var r := IssueCounts(items);
    assert r == e + w + n;
    forall i, j | 0 <= i < j < |r| ensures Rank(r[i].variant) < Rank(r[j].variant) {
      if i < |e| {
        assert r[i] == e[0];
      } else {
        assert i == |e| && r[i] == w[0] && r[j] == n[0];
      }
    }
  }

  /** The category a variant shows. */
  function CategoryOf(v: Variant): (c: Category)
    ensures VariantOf(c) == v
  {
    match v
    case Failure => Error
    case Waiting => Warning
    case Notice => Info
  }

  /** A category has an entry in `issueCounts` exactly when some item has
      it, and every entry is the positive count of the category its
      variant shows. */
  lemma IssueCountsMembers(items: seq<ErrorDetail>, category: Category, c: IssueCount)
    ensures CountOf(items, category) > 0 <==> IssueCount(CountOf(items, category), VariantOf(category)) in IssueCounts(items)
    ensures c in IssueCounts(items) ==> c.count > 0 && c == IssueCount(CountOf(items, CategoryOf(c.variant)), c.variant)
  {
    var e, w, n := Entry(items, Error), Entry(items, Warning), Entry(items, Info);
    assert IssueCounts(items) == e + w + n;
  }

  // ---------------------------------------------------------------------
  // Visibility and grouping.
  // ---------------------------------------------------------------------

  /** `visible`: the keys of the registry's jobs whose key passes the jobs
      filter and whose status passes the statuses filter. */
  function Visible(registry: seq<JobMeta>, jobs: set<string>, statuses: set<string>): (r: set<string>)
    ensures forall key :: key in r <==> exists j :: j in registry && j.key == key && j.key in jobs && j.status in statuses
    ensures r <= jobs
  {
    set j | j in registry && j.key in jobs && j.status in statuses :: j.key
  }

  /** The job key of an error id. The page passes `errorIdToJobKey` as
      written; the grouping holds for any key function. */
  type KeyOf = string -> string

  /** The errors of one job, in input order. */
  function ErrorsOfJob(errors: seq<ErrorDetail>, key: string, jobKey: KeyOf): (r: seq<ErrorDetail>)
    ensures |r| <= |errors|
  {
    if errors == [] then []
    else
      var last := errors[|errors| - 1];
      ErrorsOfJob(errors[..|errors| - 1], key, jobKey) + (if jobKey(last.id) == key then [last] else [])
  }

  /** The job keys that the errors name. */
  function JobKeys(errors: seq<ErrorDetail>, jobKey: KeyOf): set<string> {
    set e | e in errors :: jobKey(e.id)
  }

  lemma ErrorsOfJobSnoc(prefix: seq<ErrorDetail>, e: ErrorDetail, key: string, jobKey: KeyOf)
    ensures ErrorsOfJob(prefix + [e], key, jobKey)
         == ErrorsOfJob(prefix, key, jobKey) + (if jobKey(e.id) == key then [e] else [])
    ensures JobKeys(prefix + [e], jobKey) == JobKeys(prefix, jobKey) + {jobKey(e.id)}
  {
    assert (prefix + [e])[..|prefix|] == prefix;
  }

  /** `m` holds, under each job key the errors name, that job's errors. */
  predicate GroupedBy(m: map<string, seq<ErrorDetail>>, errors: seq<ErrorDetail>, jobKey: KeyOf) {
    && m.Keys == JobKeys(errors, jobKey)
    && forall key :: key in m ==> m[key] == ErrorsOfJob(errors, key, jobKey)
  }

  lemma {:induction false} NoKeyNoErrors(errors: seq<ErrorDetail>, key: string, jobKey: KeyOf)
    requires key !in JobKeys(errors, jobKey)
    ensures ErrorsOfJob(errors, key, jobKey) == []
  {
    if errors != [] {
      var init := errors[..|errors| - 1];
      assert errors == init + [errors[|errors| - 1]];
      assert JobKeys(init, jobKey) <= JobKeys(errors, jobKey);
      NoKeyNoErrors(init, key, jobKey);
    }
  }

  /** `m` with `e` appended to its job's list, a new list when the key is
      new. */
  function Pushed(m: map<string, seq<ErrorDetail>>, e: ErrorDetail, jobKey: KeyOf): map<string, seq<ErrorDetail>> {
    var key := jobKey(e.id);
    m[key := (if key in m then m[key] else []) + [e]]
  }

  /** Appending an error to its job's list keeps the grouping. */
  lemma GroupedByPush(m: map<string, seq<ErrorDetail>>, prefix: seq<ErrorDetail>, e: ErrorDetail, jobKey: KeyOf)
    requires GroupedBy(m, prefix, jobKey)
    ensures GroupedBy(Pushed(m, e, jobKey), prefix + [e], jobKey)
  {
    var key := jobKey(e.id);
    var m' := Pushed(m, e, jobKey);
    ErrorsOfJobSnoc(prefix, e, key, jobKey);
    assert m'.Keys == m.Keys + {key};
    forall k | k in m' ensures m'[k] == ErrorsOfJob(prefix + [e], k, jobKey) {
      PushedListAt(m, prefix, e, k, jobKey);
    }
  }

  /** One list of the grouping after an error was appended. */
  lemma PushedListAt(m: map<string, seq<ErrorDetail>>, prefix: seq<ErrorDetail>, e: ErrorDetail, k: string, jobKey: KeyOf)
    requires GroupedBy(m, prefix, jobKey)
    requires k in Pushed(m, e, jobKey)
    ensures Pushed(m, e, jobKey)[k] == ErrorsOfJob(prefix + [e], k, jobKey)
  {
    var key := jobKey(e.id);
    ErrorsOfJobSnoc(prefix, e, k, jobKey);
    if k != key {
      assert m[k] == ErrorsOfJob(prefix, k, jobKey);
    } else if key in m {
      assert m[key] == ErrorsOfJob(prefix, key, jobKey);
    } else {
      NoKeyNoErrors(prefix, key, jobKey);
    }
  }

  /** The step of the loop of `errorsByJob`. */
  lemma GroupedByStep(m: map<string, seq<ErrorDetail>>, errors: seq<ErrorDetail>, i: nat, jobKey: KeyOf)
    requires i < |errors| && GroupedBy(m, errors[..i], jobKey)
    ensures GroupedBy(Pushed(m, errors[i], jobKey), errors[..i + 1], jobKey)
  {
    assert errors[..i + 1] == errors[..i] + [errors[i]];
    GroupedByPush(m, errors[..i], errors[i], jobKey);
  }

  /** `errorsByJob`: a list per job key that occurs, holding that job's
      errors in input order, keyed by `errorIdToJobKey` as written. */
  method ErrorsByJob(errors: seq<ErrorDetail>) returns (m: map<string, seq<ErrorDetail>>)
    ensures m.Keys == JobKeys(errors, ErrorIdToJobKeyAsWritten)
    ensures forall key :: key in m ==> m[key] == ErrorsOfJob(errors, key, ErrorIdToJobKeyAsWritten)
  {
    m := map[];
    for i := 0 to |errors|
      invariant GroupedBy(m, errors[..i], ErrorIdToJobKeyAsWritten)
    {
      GroupedByStep(m, errors, i, ErrorIdToJobKeyAsWritten);
      m := Pushed(m, errors[i], ErrorIdToJobKeyAsWritten);
    }
    assert errors[..|errors|] == errors;
  }

  /** Every error sits in the list of its own job and in no other, and the
      lists hold nothing else. */
  lemma {:induction false} ErrorsPartitioned(errors: seq<ErrorDetail>, e: ErrorDetail, key: string, jobKey: KeyOf)
    ensures e in ErrorsOfJob(errors, key, jobKey) <==> e in errors && jobKey(e.id) == key
  {
    if errors != [] {
      var init, last := errors[..|errors| - 1], errors[|errors| - 1];
      ErrorsPartitioned(init, e, key, jobKey);
      assert errors == init + [last];
      assert e in errors <==> e in init || e == last;
    }
  }

  // ---------------------------------------------------------------------
  // The effect that drops hidden errors from the selection.
  // ---------------------------------------------------------------------

  /** The ids of the errors whose job is not visible. */
  function HiddenIds(errors: seq<ErrorDetail>, visible: set<string>, jobKey: KeyOf): (ids: seq<string>)
    ensures forall e :: e in errors && jobKey(e.id) !in visible ==> e.id in ids
    ensures forall id :: id in ids ==> exists e :: e in errors && e.id == id && jobKey(e.id) !in visible
  {
    if errors == [] then []
    else
      var last := errors[|errors| - 1];
      HiddenIds(errors[..|errors| - 1], visible, jobKey) + (if jobKey(last.id) !in visible then [last.id] else [])
  }

  /** The `useEffect` of the job list, keyed by `errorIdToJobKey` as
      written: afterwards no selected error belongs to a job that is not
      visible, and only such errors were dropped. */
  method DeselectHidden(selection: SelectionState, errors: seq<ErrorDetail>, visible: set<string>)
    modifies selection
    ensures selection.selectedIds == old(selection.selectedIds) - Elements(HiddenIds(errors, visible, ErrorIdToJobKeyAsWritten))
    ensures forall e :: e in errors && e.id in selection.selectedIds ==> ErrorIdToJobKeyAsWritten(e.id) in visible
  {
    selection.DeselectMany(HiddenIds(errors, visible, ErrorIdToJobKeyAsWritten));
  }

  /** As written, the healer run's type errors are filed under "types", a
      job it does not have: the "check-types" row gets none of them, and
      whatever the filters, the effect counts them as hidden. */
  lemma TypesErrorsAlwaysHidden(jobs: set<string>, statuses: set<string>)
    ensures ErrorsOfJob(HEALER_ERRORS, "check-types", ErrorIdToJobKeyAsWritten) == []
    ensures "types-0" in HiddenIds(HEALER_ERRORS, Visible(HEALER_JOBS, jobs, statuses), ErrorIdToJobKeyAsWritten)
    ensures "types-1" in HiddenIds(HEALER_ERRORS, Visible(HEALER_JOBS, jobs, statuses), ErrorIdToJobKeyAsWritten)
  {
    var visible := Visible(HEALER_JOBS, jobs, statuses);
    TypesErrorsOrphaned();
    assert "types" !in visible;
    assert ErrorIdToJobKeyAsWritten(HEALER_ERRORS[4].id) == "types" by {
      IdWithPrefix(HEALER_ERRORS, 4, "types");
    }
    forall e | e in HEALER_ERRORS ensures ErrorIdToJobKeyAsWritten(e.id) != "check-types" {
      var i :| 0 <= i < |HEALER_ERRORS| && HEALER_ERRORS[i] == e;
      if i < 3 {
        IdWithPrefix(HEALER_ERRORS, i, "test");
      } else {
        IdWithPrefix(HEALER_ERRORS, i, "types");
      }
    }
    assert "check-types" !in JobKeys(HEALER_ERRORS, ErrorIdToJobKeyAsWritten);
    NoKeyNoErrors(HEALER_ERRORS, "check-types", ErrorIdToJobKeyAsWritten);
    assert HEALER_ERRORS[3] in HEALER_ERRORS && HEALER_ERRORS[4] in HEALER_ERRORS;
  }

  /** Errors whose jobs are all visible hide nothing. */
  lemma {:induction false} NoneHidden(errors: seq<ErrorDetail>, visible: set<string>, jobKey: KeyOf)
    requires forall e :: e in errors ==> jobKey(e.id) in visible
    ensures HiddenIds(errors, visible, jobKey) == []
  {
    if errors != [] {
      var init := errors[..|errors| - 1];
      assert forall e :: e in init ==> e in errors;
      assert errors[|errors| - 1] in errors;
      NoneHidden(init, visible, jobKey);
    }
  }

  /** With the corrected key, an error is hidden only when the filters hide
      its job: with every job of a run visible, the effect drops nothing. */
  lemma CorrectedKeyHidesOnlyFiltered(r: nat, visible: set<string>)
    requires r < |MOCK_RUNS|
    requires forall j :: j in MOCK_RUNS[r].1.jobs ==> j.key in visible
    ensures HiddenIds(MOCK_RUNS[r].1.errors, visible, ErrorIdToJobKey) == []
  {
    var run := MOCK_RUNS[r].1;
    EveryErrorHasItsJob();
    forall e | e in run.errors ensures ErrorIdToJobKey(e.id) in visible {
      var i :| 0 <= i < |run.errors| && run.errors[i] == e;
      assert HasJob(run.jobs, ErrorIdToJobKey(run.errors[i].id));
    }
    NoneHidden(run.errors, visible, ErrorIdToJobKey);
  }

  // ---------------------------------------------------------------------
  // What each job row shows.
  // ---------------------------------------------------------------------

  /** A job that `defaultOpen` opens: visible, and failed or healing. */
  predicate OpensByDefault(j: JobMeta, visible: set<string>) {
    (j.status == "failed" || j.status == "healing") && j.key in visible
  }

  /** `defaultOpen`: the registry's visible jobs that failed or are
      healing, in registry order. */
  function DefaultOpen(registry: seq<JobMeta>, visible: set<string>): (r: seq<string>)
    ensures |r| <= |registry|
    ensures forall key :: key in r <==>
      exists j :: j in registry && j.key == key && (j.status == "failed" || j.status == "healing") && key in visible
  {
    if registry == [] then []
    else
      var last := registry[|registry| - 1];
      DefaultOpen(registry[..|registry| - 1], visible)
        + (if OpensByDefault(last, visible) then [last.key] else [])
  }

  /** `keys` lists the keys of the opening jobs of `registry` at the
      strictly rising positions `idx`, and every opening job's position is
      among them: each opening job gives exactly one entry, in registry
      order. */
  predicate ListsOpeningInOrder(registry: seq<JobMeta>, visible: set<string>, keys: seq<string>, idx: seq<nat>) {
    && |idx| == |keys|
    && (forall k :: 0 <= k < |idx| ==>
          idx[k] < |registry| && OpensByDefault(registry[idx[k]], visible) && keys[k] == registry[idx[k]].key)
    && (forall k, l :: 0 <= k < l < |idx| ==> idx[k] < idx[l])
    && (forall a :: 0 <= a < |registry| && OpensByDefault(registry[a], visible) ==> a in idx)
  }

  /** One more registry entry keeps the listing ordered. */
  lemma {:induction false} ListsOpeningStep(registry: seq<JobMeta>, visible: set<string>, keys: seq<string>, prev: seq<nat>)
    returns (idx: seq<nat>)
    requires registry != []
    requires ListsOpeningInOrder(registry[..|registry| - 1], visible, keys, prev)
    ensures var last := registry[|registry| - 1];
      ListsOpeningInOrder(registry, visible, keys + (if OpensByDefault(last, visible) then [last.key] else []), idx)
  {
    var n := |registry| - 1;
    var init := registry[..n];
    var tail := if OpensByDefault(registry[n], visible) then [registry[n].key] else [];
    idx := if OpensByDefault(registry[n], visible) then prev + [n] else prev;
    forall k | 0 <= k < |idx|
      ensures idx[k] < |registry| && OpensByDefault(registry[idx[k]], visible)
      ensures (keys + tail)[k] == registry[idx[k]].key
    {
      if k < |prev| {
        assert idx[k] == prev[k] && init[prev[k]] == registry[prev[k]];
      }
    }
    forall a | 0 <= a < |registry| && OpensByDefault(registry[a], visible)
      ensures a in idx
    {
      if a < n {
        assert init[a] == registry[a];
      }
    }
  }

  /** The order and the count of `defaultOpen`. */
  lemma {:induction false} DefaultOpenOrdered(registry: seq<JobMeta>, visible: set<string>) returns (idx: seq<nat>)
    ensures ListsOpeningInOrder(registry, visible, DefaultOpen(registry, visible), idx)
  {
    if registry == [] {
      idx := [];
    } else {
      var prev := DefaultOpenOrdered(registry[..|registry| - 1], visible);
      idx := ListsOpeningStep(registry, visible, DefaultOpen(registry[..|registry| - 1], visible), prev);
    }
  }

  datatype Panel = WaitingPanel | SuccessPanel | SkippedPanel | IssueTable(items: seq<ErrorDetail>) | NoIssuesPanel

  /** `resolveJobPanel`: waiting, successful and skipped first, then the
      issue table when there are issues, else "No issues". */
  function ResolveJobPanel(status: string, issues: seq<ErrorDetail>): (p: Panel)
    ensures p.WaitingPanel? <==> status == "waiting"
    ensures p.SuccessPanel? <==> status == "successful"
    ensures p.SkippedPanel? <==> status == "skipped"
    ensures p.IssueTable? <==> status !in {"waiting", "successful", "skipped"} && |issues| > 0
    ensures p.IssueTable? ==> p.items == issues
  {
    if status == "waiting" then WaitingPanel
    else if status == "successful" then SuccessPanel
    else if status == "skipped" then SkippedPanel
    else if |issues| > 0 then IssueTable(issues)
    else NoIssuesPanel
  }

  datatype Subtitle = WaitingForJob | HealingErrors | FailedWith(count: nat) | SuccessfulIn

  /** `resolveJobSubtitle`: a failed job is labelled only when it has
      issues; a status the viewer does not know gets no subtitle. */
  function ResolveJobSubtitle(status: string, issueCount: nat): (r: Option<Subtitle>)
    ensures r.None? <==> status !in {"waiting", "healing", "successful"} && !(status == "failed" && issueCount > 0)
    ensures status == "failed" ==> (r.Some? <==> issueCount > 0)
    ensures r.Some? && r.value.FailedWith? ==> r.value.count == issueCount && issueCount > 0
  {
    if status == "waiting" then Some(WaitingForJob)
    else if status == "healing" then Some(HealingErrors)
    else if status == "failed" && issueCount > 0 then Some(FailedWith(issueCount))
    else if status == "successful" then Some(SuccessfulIn)
    else None
  }

  /** `JOB_LABELS`, falling back to the key itself. */
  function JobLabel(key: string): string {
    if key == "lint" then "Lint"
    else if key == "test" then "Test"
    else if key == "check-types" then "Check Types"
    else if key == "migrations" then "Migrations"
    else if key == "build" then "Build"
    else key
  }

  datatype JobRow = JobRow(title: string, subtitle: Option<Subtitle>, healIcon: bool, panel: Panel)

  /** `GenericJob`: the row of one job from its key, its status and the
      errors grouped under it. */
  function GenericJob(key: string, status: string, issues: seq<ErrorDetail>): (row: JobRow)
    ensures row.healIcon <==> status == "failed" || status == "healing"
    ensures row.subtitle == ResolveJobSubtitle(status, |issues|)
    ensures row.panel == ResolveJobPanel(status, issues)
    ensures key !in {"lint", "test", "check-types", "migrations", "build"} ==> row.title == key
  {
    JobRow(JobLabel(key), ResolveJobSubtitle(status, |issues|),
      status == "failed" || status == "healing", ResolveJobPanel(status, issues))
  }
}
