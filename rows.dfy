/** The rows the front end reads from the database: a row of the `jobs` table
    and a row of `user_preferences`, with the columns their generated types
    declare. Nullable columns are `Option`s; timestamps stay ISO texts, and
    the modules that compare them take the parsing (`new Date(t).getTime()`)
    as a function parameter. */
module Rows {
  import opened Util

  datatype Job = Job(
    id: string, title: string, company: string, description: string,
    requirements: Option<string>, location: string,
    job_type: string, category: string, tags: Option<seq<string>>,
    salary_min: Option<int>, salary_max: Option<int>,
    salary_currency: string, salary_period: string,
    remote_type: Option<string>, company_size: Option<string>,
    apply_url: string, company_url: Option<string>, company_logo_url: Option<string>,
    source: string, source_id: Option<string>,
    published_at: string, expires_at: Option<string>, created_at: string, updated_at: string,
    is_featured: bool, is_active: bool)

  /** The columns of `user_preferences` the recommendations look at. */
  datatype Preferences = Preferences(
    categories: seq<string>, job_types: seq<string>, remote_types: seq<string>,
    company_sizes: seq<string>, salary_min: Option<int>, salary_max: Option<int>)

  /** The closed sets of values the schema declares. */
  const JobTypes: set<string> := {"Full-time", "Part-time", "Contract", "Freelance"}
  const SalaryPeriods: set<string> := {"yearly", "monthly", "hourly", "project"}
  const RemoteTypes: set<string> := {"fully-remote", "hybrid", "on-site", "timezone-specific"}
  const CompanySizes: set<string> := {"startup", "small", "medium", "large", "enterprise"}
}
