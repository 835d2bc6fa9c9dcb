/** The job recommendations table, read by `jobs.getById` and
    `linkedin.scrapeJobs`; no handler changes it. */
module Jobs {
  import opened Common
  import Tables

  /** A job recommendation (the fields the handlers touch, and the ones that
      identify a posting). */
  datatype Job = Job(id: int, company: string, position: string, location: Option<string>)

  /** The answer of `linkedin.scrapeJobs`. */
  datatype ScrapeResult = ScrapeResult(success: bool, jobs: seq<Job>)

  function HasId(id: int): Job -> bool {
    (j: Job) => j.id == id
  }

  /** `jobs.getById`: the first job with that id, or `null`. */
  function GetById(jobs: seq<Job>, id: int): (r: Option<Job>)
    ensures r.Some? ==> r.value.id == id && exists k :: Tables.IsFirstMatch(jobs, HasId(id), k) && jobs[k] == r.value
    ensures r.None? <==> forall i :: 0 <= i < |jobs| ==> jobs[i].id != id
  {
    Tables.Find(jobs, HasId(id))
  }

  /** `input.rows || 10`: an omitted count and a count of 0 (falsy) both mean 10. */
  function RowLimit(rows: Option<int>): (n: int)
    ensures n != 0
    ensures rows.None? || rows.value == 0 ==> n == 10
    ensures rows.Some? && rows.value != 0 ==> n == rows.value
  {
    if rows.None? || rows.value == 0 then 10 else rows.value
  }

  /** `linkedin.scrapeJobs`: `{success: true, jobs: jobs.slice(0, rows || 10)}`.
      The search title and location are accepted and ignored. */
  function ScrapeJobs(jobs: seq<Job>, title: string, location: string, rows: Option<int>): (r: ScrapeResult)
    ensures r.success
    ensures r.jobs <= jobs
  {
    ScrapeResult(true, Tables.SliceTo(jobs, RowLimit(rows)))
  }

  // ---------------------------------------------------------------------
  // Properties

  /** A positive count (or none, meaning 10) answers the first
      `min(count, |jobs|)` jobs. */
  lemma ScrapeJobsPositive(jobs: seq<Job>, title: string, location: string, rows: Option<int>)
    requires rows.None? || rows.value >= 0
    ensures var n := RowLimit(rows);
      ScrapeJobs(jobs, title, location, rows).jobs == jobs[..if n < |jobs| then n else |jobs|]
  {
  }

  /** A count of 0 behaves exactly like an omitted count. */
  lemma ScrapeJobsZeroIsDefault(jobs: seq<Job>, title: string, location: string)
    ensures ScrapeJobs(jobs, title, location, Some(0)) == ScrapeJobs(jobs, title, location, None)
    ensures |ScrapeJobs(jobs, title, location, None).jobs| == if |jobs| < 10 then |jobs| else 10
  {
  }

  /** A negative count follows `slice`: it drops that many jobs from the end. */
  lemma ScrapeJobsNegative(jobs: seq<Job>, title: string, location: string, n: int)
    requires n < 0
    ensures ScrapeJobs(jobs, title, location, Some(n)).jobs ==
      jobs[..if |jobs| + n < 0 then 0 else |jobs| + n]
  {
  }

  /** The answer does not depend on the search title or location. */
  lemma ScrapeJobsIgnoresQuery(jobs: seq<Job>, t1: string, l1: string, t2: string, l2: string, rows: Option<int>)
    ensures ScrapeJobs(jobs, t1, l1, rows) == ScrapeJobs(jobs, t2, l2, rows)
  {
  }
}
