/** The CI viewer's two filters, the jobs shown and the statuses shown,
    each a set that the toggle, solo and reset handlers replace. */
module Filters {
  import opened SetUtils

  const ALL_JOBS: seq<string> := ["lint", "test", "check-types", "migrations", "build"]
  const ALL_STATUSES: seq<string> := ["failed", "waiting", "successful", "healed", "healing", "skipped"]

  class FilterState {
    var jobs: set<string>
    var statuses: set<string>

    /** Both filters start full. */
    constructor()
      ensures jobs == Elements(ALL_JOBS) && statuses == Elements(ALL_STATUSES)
    {
      jobs := Elements(ALL_JOBS);
      statuses := Elements(ALL_STATUSES);
    }

    method ToggleJob(value: string)
      modifies this
      ensures jobs == ToggleInSet(old(jobs), value) && statuses == old(statuses)
    {
      jobs := ToggleInSet(jobs, value);
    }

    method ToggleStatus(value: string)
      modifies this
      ensures statuses == ToggleInSet(old(statuses), value) && jobs == old(jobs)
    {
      statuses := ToggleInSet(statuses, value);
    }

    method SoloJob(value: string)
      modifies this
      ensures jobs == SoloInSet(old(jobs), value, ALL_JOBS) && statuses == old(statuses)
    {
      jobs := SoloInSet(jobs, value, ALL_JOBS);
    }

    method SoloStatus(value: string)
      modifies this
      ensures statuses == SoloInSet(old(statuses), value, ALL_STATUSES) && jobs == old(jobs)
    {
      statuses := SoloInSet(statuses, value, ALL_STATUSES);
    }

    method ResetJobs()
      modifies this
      ensures jobs == Elements(ALL_JOBS) && statuses == old(statuses)
    {
      jobs := Elements(ALL_JOBS);
    }

    method ResetStatuses()
      modifies this
      ensures statuses == Elements(ALL_STATUSES) && jobs == old(jobs)
    {
      statuses := Elements(ALL_STATUSES);
    }
  }

  /** From the full jobs filter, soloing a job shows that job alone and
      soloing it again shows every job. */
  lemma SoloJobTwice(value: string)
    requires value in ALL_JOBS
    ensures SoloInSet(Elements(ALL_JOBS), value, ALL_JOBS) == {value}
    ensures SoloInSet({value}, value, ALL_JOBS) == Elements(ALL_JOBS)
  {
    var other := if value == "lint" then "test" else "lint";
    SoloTwiceRestores(ALL_JOBS, value, other);
  }

  /** The same for the statuses filter. */
  lemma SoloStatusTwice(value: string)
    requires value in ALL_STATUSES
    ensures SoloInSet(Elements(ALL_STATUSES), value, ALL_STATUSES) == {value}
    ensures SoloInSet({value}, value, ALL_STATUSES) == Elements(ALL_STATUSES)
  {
    var other := if value == "failed" then "waiting" else "failed";
    SoloTwiceRestores(ALL_STATUSES, value, other);
  }

  /** The full filters hold five jobs and six statuses. */
  lemma FullSizes()
    ensures |Elements(ALL_JOBS)| == 5 && |Elements(ALL_STATUSES)| == 6
  {
    assert Elements(ALL_JOBS) == {"lint", "test", "check-types", "migrations", "build"};
    assert Elements(ALL_STATUSES) == {"failed", "waiting", "successful", "healed", "healing", "skipped"};
  }
}
