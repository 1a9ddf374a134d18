/** The CI viewer's filter bar: the commit picker, the jobs and statuses
    pickers with their trigger labels, and the grouped status menu. */
module RunFilters {
  import opened Wrappers
  import opened JsStrings
  import opened SetUtils
  import Filters

  datatype CommitOption = CommitOption(value: string, caption: string)

  /** An option of a picker; its icon is rendering only. */
  datatype IconOption = IconOption(value: string, caption: string)

  const COMMITS: seq<CommitOption> := [
    CommitOption("latest", "Latest Commit"),
    CommitOption("abc1234", "abc1234 — initial push"),
    CommitOption("def5678", "def5678 — fix tests"),
    CommitOption("a1b2c3d", "a1b2c3d — add migrations")
  ]

  const JOBS: seq<IconOption> := [
    IconOption("lint", "Lint"), IconOption("test", "Test"), IconOption("check-types", "Check Types"),
    IconOption("migrations", "Migrations"), IconOption("build", "Build")
  ]

  const STATUSES: seq<IconOption> := [
    IconOption("successful", "Successful"), IconOption("healed", "Healed"), IconOption("failed", "Failed"),
    IconOption("healing", "Healing"), IconOption("waiting", "Waiting"), IconOption("skipped", "Skipped")
  ]

  /** `allItems.find((i) => selected.has(i.value))`. */
  function FindSelected(items: seq<IconOption>, selected: set<string>): (r: Option<IconOption>)
    ensures r.None? <==> forall i :: 0 <= i < |items| ==> items[i].value !in selected
    ensures r.Some? ==> exists i :: (0 <= i < |items| && items[i] == r.value && r.value.value in selected
      && forall j :: 0 <= j < i ==> items[j].value !in selected)
  {
    if items == [] then None
    else if items[0].value in selected then Some(items[0])
    else
      var r := FindSelected(items[1..], selected);
      if r.Some? then
        var i :| 0 <= i < |items| - 1 && items[1..][i] == r.value && r.value.value in selected
          && forall j :: 0 <= j < i ==> items[1..][j].value !in selected;
        assert items[i + 1] == r.value;
        assert forall j :: 1 <= j < i + 1 ==> items[j] == items[1..][j - 1];
        r
      else
        r
  }

  /** `resolveFilterLabel`: "All …" when everything is selected, "No …" when
      nothing is, the caption of the selected item (or "1 …") when one is,
      and the count otherwise. */
  function ResolveFilterLabel(
    selected: set<string>, total: nat, singular: string, plural: string, allItems: seq<IconOption>): (r: string)
    ensures |selected| == total ==> r == "All " + plural
    ensures |selected| != total && |selected| == 0 ==> r == "No " + plural
    ensures |selected| != total && |selected| == 1 ==>
      r == (match FindSelected(allItems, selected) case Some(item) => item.caption case None => "1 " + singular)
    ensures |selected| != total && |selected| > 1 ==> r == Decimal(|selected|) + " " + plural
  {
    if |selected| == total then "All " + plural
    else if |selected| == 0 then "No " + plural
    else if |selected| == 1 then
      match FindSelected(allItems, selected)
      case Some(item) => item.caption
      case None => "1 " + singular
    else Decimal(|selected|) + " " + plural
  }

  function Values(items: seq<IconOption>): seq<string> {
    seq(|items|, i requires 0 <= i < |items| => items[i].value)
  }

  lemma JobsMatchFilter()
    ensures Values(JOBS) == Filters.ALL_JOBS
    ensures Elements(Values(STATUSES)) == Elements(Filters.ALL_STATUSES)
    ensures |STATUSES| == 6 && |JOBS| == 5
  {
    assert Values(STATUSES) == ["successful", "healed", "failed", "healing", "waiting", "skipped"];
    assert Elements(Values(STATUSES)) == {"successful", "healed", "failed", "healing", "waiting", "skipped"};
    assert Elements(Filters.ALL_STATUSES) == {"successful", "healed", "failed", "healing", "waiting", "skipped"};
  }

  lemma {:induction false} FindSelectedAt(items: seq<IconOption>, selected: set<string>, k: nat)
    requires k < |items| && items[k].value in selected
    requires forall j :: 0 <= j < k ==> items[j].value !in selected
    ensures FindSelected(items, selected) == Some(items[k])
  {
    if k > 0 {
      FindSelectedAt(items[1..], selected, k - 1);
    }
  }

  /** The jobs trigger after soloing a job shows that job's caption. */
  lemma SoloedJobLabel(i: nat)
    requires i < |JOBS|
    ensures ResolveFilterLabel({JOBS[i].value}, |JOBS|, "Job", "Jobs", JOBS) == JOBS[i].caption
  {
    assert forall j :: 0 <= j < i ==> JOBS[j].value != JOBS[i].value;
    FindSelectedAt(JOBS, {JOBS[i].value}, i);
  }

  // ---------------------------------------------------------------------
  // Dirty state.
  // ---------------------------------------------------------------------

  /** `isDirty` of the jobs and statuses pickers. */
  predicate Dirty(selected: set<string>, total: nat) {
    |selected| != total
  }

  /** On sets drawn from the full filter, dirty means exactly "not
      everything selected". */
  lemma DirtyIffNotFull(selected: set<string>, all: seq<string>)
    requires selected <= Elements(all)
    ensures Dirty(selected, |Elements(all)|) <==> selected != Elements(all)
  {
    if |selected| == |Elements(all)| {
      SubsetOfSameSize(selected, Elements(all));
    }
  }

  /** `singleSelected`: the status singled out, when the filter is dirty and
      exactly one status is selected. */
  function SingleSelected(selected: set<string>): (r: Option<IconOption>)
    ensures r.Some? ==> Dirty(selected, |STATUSES|) && |selected| == 1 && r.value in STATUSES && r.value.value in selected
    ensures Dirty(selected, |STATUSES|) && |selected| == 1 && (exists s :: s in STATUSES && s.value in selected) ==> r.Some?
  {
    if Dirty(selected, |STATUSES|) && |selected| == 1 then
      var r := FindSelected(STATUSES, selected);
      assert r.Some? ==> r.value in STATUSES;
      assert (exists s :: s in STATUSES && s.value in selected) ==> r.Some?;
      r
    else None
  }

  // ---------------------------------------------------------------------
  // The grouped status menu.
  // ---------------------------------------------------------------------

  datatype Section = Section(title: string, items: seq<IconOption>)

  /** `STATUSES.find((s) => s.value === v)`, on any list of options. */
  function FindByValue(items: seq<IconOption>, v: string): Option<IconOption> {
    if items == [] then None
    else if items[0].value == v then Some(items[0])
    else FindByValue(items[1..], v)
  }

  /** The lookup finds an option with that value exactly when there is one. */
  lemma {:induction false} FindByValueSpec(items: seq<IconOption>, v: string)
    ensures var r := FindByValue(items, v);
      && (r.Some? ==> r.value in items && r.value.value == v)
      && (r.None? <==> forall s :: s in items ==> s.value != v)
  {
    if items != [] && items[0].value != v {
      FindByValueSpec(items[1..], v);
      assert items == [items[0]] + items[1..];
    }
  }

  lemma {:induction false} FindByValueAt(items: seq<IconOption>, i: nat)
    requires i < |items| && forall j :: 0 <= j < i ==> items[j].value != items[i].value
    ensures FindByValue(items, items[i].value) == Some(items[i])
  {
    if i > 0 {
      FindByValueAt(items[1..], i - 1);
    }
  }

  /** The values of a section, each looked up and the misses dropped. */
  function Resolve(values: seq<string>): (items: seq<IconOption>)
    ensures |items| <= |values|
  {
    if values == [] then []
    else
      match FindByValue(STATUSES, values[0])
      case Some(s) => [s] + Resolve(values[1..])
      case None => Resolve(values[1..])
  }

  const PASSING_VALUES: seq<string> := ["successful", "healed"]
  const ATTENTION_VALUES: seq<string> := ["failed", "healing", "waiting"]
  const OTHER_VALUES: seq<string> := ["skipped"]

  /** `STATUS_SECTIONS`: each section's values looked up in `STATUSES`. */
  function StatusSections(): seq<Section> {
    [ Section("Passing", Resolve(PASSING_VALUES)),
      Section("Attention", Resolve(ATTENTION_VALUES)),
      Section("Other", Resolve(OTHER_VALUES)) ]
  }

  function AllItems(sections: seq<Section>): seq<IconOption> {
    if sections == [] then [] else sections[0].items + AllItems(sections[1..])
  }

  lemma FindStatusAt(i: nat)
    requires i < |STATUSES|
    ensures FindByValue(STATUSES, STATUSES[i].value) == Some(STATUSES[i])
  {
    assert forall a, b :: 0 <= a < b < |STATUSES| ==> STATUSES[a].value != STATUSES[b].value;
    FindByValueAt(STATUSES, i);
  }

  /** Looking up a list whose head is the value of the `i`-th status puts
      that status first. */
  lemma {:induction false} ResolveHead(values: seq<string>, i: nat)
    requires i < |STATUSES| && values != [] && values[0] == STATUSES[i].value
    ensures Resolve(values) == [STATUSES[i]] + Resolve(values[1..])
  {
    FindStatusAt(i);
  }

  lemma PassingItems()
    ensures StatusSections()[0].items == [STATUSES[0], STATUSES[1]]
  {
    var vs := PASSING_VALUES;
    ResolveHead(vs, 0);
    ResolveHead(vs[1..], 1);
    assert vs[1..][1..] == [];
  }

  lemma AttentionItems()
    ensures StatusSections()[1].items == [STATUSES[2], STATUSES[3], STATUSES[4]]
  {
    var vs := ATTENTION_VALUES;
    ResolveHead(vs, 2);
    ResolveHead(vs[1..], 3);
    ResolveHead(vs[1..][1..], 4);
    assert vs[1..][1..][1..] == [];
  }

  lemma OtherItems()
    ensures StatusSections()[2].items == [STATUSES[5]]
  {
    var vs := OTHER_VALUES;
    ResolveHead(vs, 5);
    assert vs[1..] == [];
  }

  lemma AllItemsCons(sections: seq<Section>)
    requires sections != []
    ensures AllItems(sections) == sections[0].items + AllItems(sections[1..])
  {
  }

  /** The menu lists every status exactly once, in the order of
      `STATUSES`. */
  lemma StatusSectionsCoverStatuses()
    ensures AllItems(StatusSections()) == STATUSES
    ensures multiset(AllItems(StatusSections())) == multiset(STATUSES)
  {
    var s := StatusSections();
    PassingItems();
    AttentionItems();
    OtherItems();
    AllItemsCons(s);
    AllItemsCons(s[1..]);
    AllItemsCons(s[2..]);
    assert s[1..][1..] == s[2..];
    assert s[2..][1..] == [];
    assert STATUSES == [STATUSES[0], STATUSES[1]] + [STATUSES[2], STATUSES[3], STATUSES[4]] + [STATUSES[5]];
  }

  // ---------------------------------------------------------------------
  // The commit picker.
  // ---------------------------------------------------------------------

  const LATEST: string := "latest"

  /** The commit option with that value, or the first one. */
  function CommitFor(value: string): (c: CommitOption)
    ensures c in COMMITS
    ensures (exists i :: 0 <= i < |COMMITS| && COMMITS[i].value == value) ==> c.value == value
    ensures (forall i :: 0 <= i < |COMMITS| ==> COMMITS[i].value != value) ==> c == COMMITS[0]
  {
    if value == COMMITS[0].value then COMMITS[0]
    else if value == COMMITS[1].value then COMMITS[1]
    else if value == COMMITS[2].value then COMMITS[2]
    else if value == COMMITS[3].value then COMMITS[3]
    else COMMITS[0]
  }

  /** `CommitFilter`: its `value` state, changed by the picker and the
      clear button. */
  class CommitFilter {
    var value: string

    constructor()
      ensures value == LATEST && !IsDirty()
    {
      value := LATEST;
    }

    predicate IsDirty()
      reads this
    {
      value != LATEST
    }

    /** The caption the trigger shows. */
    function SelectedCaption(): (caption: string)
      reads this
      ensures caption == CommitFor(value).caption
      ensures !IsDirty() ==> caption == "Latest Commit"
    {
      CommitFor(value).caption
    }

    /** `onValueChange`: a null selection leaves the value as it was. */
    method OnValueChange(v: Option<string>)
      modifies this
      ensures v.Some? ==> value == v.value
      ensures v.None? ==> value == old(value)
    {
      if v.Some? {
        value := v.value;
      }
    }

    /** The clear button. */
    method Clear()
      modifies this
      ensures value == LATEST && !IsDirty()
    {
      value := LATEST;
    }
  }
}
