/**
 * The records the analytics API returns and the components pass around,
 * after the HTTP client has reduced each response to its JSON body.
 */
module Data {

  datatype Option<T> = None | Some(value: T)

  /** A response body `{ data: ... }`; the `data` field may be missing, which
      the components test with `data.data?.…`. */
  datatype Envelope<T> = Envelope(data: Option<T>)

  /** `{ job_title, count }`: one job title and its number of postings. */
  datatype JobData = JobData(job_title: string, count: int)

  /** One month of the jobs-trend response: `{ month_year, jobs }`. */
  datatype MonthJobs = MonthJobs(month_year: string, jobs: seq<JobData>)

  /** The aggregated view the trend component keeps: `{ year, jobs }`. */
  datatype JobTrendData = JobTrendData(year: string, jobs: seq<JobData>)

  /** One point of the monthly series of a job title: `{ month, count }`. */
  datatype MonthlyJobData = MonthlyJobData(month: string, count: int)

  /** One item of the skill-frequency responses: `{ skill, count }`. */
  datatype SkillData = SkillData(skill: string, count: int)

  /** One item of `top_skills`: a skill and the number of postings that
      mention it. The float `percentage` field is not modelled. */
  datatype TopSkill = TopSkill(skill: string, frequency: int)

  /** The answer of the skills-by-title-and-country endpoint. A missing text
      field is "" and a missing number 0 here, which is how every use reads
      them (as falsy). */
  datatype SkillStatistics = SkillStatistics(
    job_title: string,
    country: string,
    total_jobs: int,
    total_unique_skills: int,
    top_skills: seq<TopSkill>)

  /** The `enabled` flag of a query keyed by text fields, `!!a && !!b ...`:
      it holds exactly when every field is non-empty. */
  function Enabled(fields: seq<string>): (b: bool)
    ensures b <==> forall i :: 0 <= i < |fields| ==> fields[i] != ""
  {
    if fields == [] then true else fields[0] != "" && Enabled(fields[1..])
  }

  /** The country names used as defaults by the components. */
  const VIET_NAM: string := "Việt Nam"
  const UNITED_STATES: string := "United States"
}
