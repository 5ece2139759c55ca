# RemoteJobsHub core rules, modelled in Dafny

RemoteJobsHub is a board of remote jobs with three parts:

- Scrapers fill a Supabase `jobs` table: a scheduled TypeScript function for the RemoteOK and Remotive APIs, a stand-alone Python RemoteOK scraper, and a Python RSS scraper.
- A React front end searches the jobs (through Algolia, with a database fallback), recommends them, summarises them in analytics, and builds search-engine metadata.
- Two build scripts write a sitemap and push the active jobs to the Algolia index.

This project models the rules inside those parts:

- how each scraper normalises categories and job types, cleans HTML, maps a listing to a row and counts insert outcomes;
- the recommendation score and ranking;
- the analytics aggregations;
- the filter panel, the Algolia filter string, the suggestions and the search box's keyboard handling;
- the paging of the job list, the job card's formatters and the company page's groupings;
- the SEO titles, JSON-LD objects and sitemaps;
- the paged fetch and chunked upload of the Algolia sync.

Each source file is one module. Shared modules are:

- `Util`: optional values, ASCII case mapping, substrings, joining, decimal printing;
- `Dict`: a JavaScript object used as an insertion-ordered dictionary, with the recurring "group rows by key" loop;
- `Sorting`: a stable sort driven by a comparator;
- `Rows`: the rows of the `jobs` and `user_preferences` tables.

Code that loops over state is modelled as methods with loop invariants, proved against functions that specify them:

- the insert counters, the feed and tag loops;
- the `forEach` aggregations, the day-series loop;
- the Algolia fetch and chunk loops.

Event-driven state is modelled as classes: the search box (`InstantSearch.SearchBox`) and the pager (`JobsPage.Pager`). Expression-level code is modelled as functions, with lemmas stating what they promise.

Network, database, clock, hashing and formatting calls are parameters:

- decoded response bodies or feeds, and query results as sequences;
- `reply(i)`, the database's answer to the i-th insert;
- `now` as an integer;
- `time`/`day`/`toIso`/`isoformat` for date parsing and printing;
- `md5`;
- `show` for `toLocaleString`;
- `search` for the Algolia client.

## Model

| member | source | states |
|---|---|---|
| ScrapeJobs.FirstMatch | api/scrape-jobs.ts:73-77 | a category found for a text is the value of some mapping pair |
| ScrapeJobs.FirstMatchAt | api/scrape-jobs.ts:73-77 | when key `j` is the first key of the mapping that occurs in the text, the inner loop returns its category |
| ScrapeJobs.FirstMatchNone | api/scrape-jobs.ts:73-77 | the inner loop finds nothing exactly when no key of the mapping occurs in the text |
| ScrapeJobs.TagsCategory | api/scrape-jobs.ts:71-80 | the tag loop yields 'Engineering' or a value of the mapping |
| ScrapeJobs.NormalizeCategory | api/scrape-jobs.ts:68-81 | the result is one of the eight categories, and 'Other' for an empty tag list |
| ScrapeJobs.MappingTargets | api/scrape-jobs.ts:23-37 | every value of `CATEGORY_MAPPING` is one of the eight categories |
| ScrapeJobs.NormalizeCategoryDecidedBy | api/scrape-jobs.ts:71-78 | the first tag whose lower-cased text contains a key decides; within it the first key in declaration order gives the result |
| ScrapeJobs.TagsCategoryNoMatch | api/scrape-jobs.ts:71-80 | the tag loop gives 'Engineering' when no tag contains a key |
| ScrapeJobs.NormalizeCategoryNoMatch | api/scrape-jobs.ts:69-80 | a non-empty tag list none of whose tags contains a key gives 'Engineering' |
| ScrapeJobs.NormalizeJobType | api/scrape-jobs.ts:83-97 | the result is one of Full-time, Part-time, Contract, Freelance |
| ScrapeJobs.LoweredJobType | api/scrape-jobs.ts:86-96 | the tests on the lower-cased text give one of the four job types |
| ScrapeJobs.JobTypePrecedence | api/scrape-jobs.ts:84-96 | each job type, as an if-and-only-if on the lower-cased input: 'full' beats 'part', which beats 'contract', which beats 'freelance'; anything else is Full-time |
| ScrapeJobs.JobTypeIgnoresCase | api/scrape-jobs.ts:84 | upper- or lower-casing the input does not change the job type |
| ScrapeJobs.RemoteOkBatch | api/scrape-jobs.ts:116 | `data.slice(1, 201)`: element `i` of the batch is element `i + 1` of the data, and there are at most 200 of them, exactly `min(n - 1, 200)` for n > 1 |
| ScrapeJobs.RemoteOkTags | api/scrape-jobs.ts:124 | no tags when the entry has none; otherwise the first ten of the non-empty tags, in their order (all of them when fewer) |
| ScrapeJobs.RemoteOkJob | api/scrape-jobs.ts:120-153 | an entry gives a record exactly when id, position and company are truthy; the record is well formed (category and job type in their enums, at most ten tags, active), from 'RemoteOK', titled by the position, with the entry's id as `source_id` and `epoch * 1000` or now as the publication time |
| ScrapeJobs.RemoteOkJobs | api/scrape-jobs.ts:118-157 | the pushed records are no more than the entries, each well formed and from 'RemoteOK' |
| ScrapeJobs.ScrapeRemoteOk | api/scrape-jobs.ts:99-165 | the loop computes the records of the batch, nothing for a failed fetch, and at most 200 of them |
| ScrapeJobs.RemotiveCategory | api/scrape-jobs.ts:192 | the category of a Remotive entry is one of the eight |
| ScrapeJobs.RemotiveWithoutCategory | api/scrape-jobs.ts:192 | an entry without a category is filed under 'Engineering' (the one-tag list `['']` is not empty) |
| ScrapeJobs.RemotiveTags | api/scrape-jobs.ts:195-207 | the lower-cased category first when there is one, then the lower-cased first five source tags in order, and nothing else (so at most six) |
| ScrapeJobs.RemotiveJob | api/scrape-jobs.ts:188-221 | an entry gives a record exactly when id, title and company name are truthy; the record is well formed, from 'Remotive', with a description of at most 5000 characters, `remote_type` 'fully-remote' and no `is_featured` |
| ScrapeJobs.RemotiveJobs | api/scrape-jobs.ts:186-225 | the pushed records are no more than the entries, each well formed with a description of at most 5000 characters |
| ScrapeJobs.ScrapeRemotive | api/scrape-jobs.ts:167-233 | the loop computes the records of the `jobs` array, nothing for a failed fetch or a body without `jobs` |
| ScrapeJobs.TallyTotal | api/scrape-jobs.ts:244-264 | after n inserts, inserted + duplicates + errors == n |
| ScrapeJobs.InsertJobs | api/scrape-jobs.ts:235-267 | the counters are the tally of the replies, an error whose lower-cased message contains 'unique' or 'duplicate' counted as a duplicate, and every job is counted exactly once |
| ScrapeJobs.OutcomeCounts | api/scrape-jobs.ts:327-362 | the "No jobs found" answer comes exactly when both scrapers returned nothing; otherwise the total is the sum of the two sources and the three counters add up to it |
| ScrapeJobs.Handler | api/scrape-jobs.ts:297-337 | the answer is 401 exactly when `CRON_SECRET` is set and the header is not `Bearer <secret>`; otherwise it is the outcome of inserting the RemoteOK records followed by the Remotive records |
| ScrapeJobs.InsertScraped | api/scrape-jobs.ts:311-362 | once both scrapers have returned, the answer is the outcome for their records |
| JobScraper.NormalizeCategory | scraper/job_scraper.py:51-64 | the result is one of the eight categories |
| JobScraper.MappingTargets | scraper/job_scraper.py:34-48 | every value of the Python `CATEGORY_MAPPING` is one of the eight categories |
| JobScraper.NormalizeJobType | scraper/job_scraper.py:67-81 | the result is one of the four job types, Full-time for `None` or `''` |
| JobScraper.AgreesWithCron | scraper/job_scraper.py:51-81 | both Python normalisers give the same answer as the cron function's on every input (same table in the same order, same tests) |
| JobScraper.Batch | scraper/job_scraper.py:98-101 | `data[1:50+1]`: nothing for at most one element; otherwise exactly `min(len(data) - 1, 50)` entries, entry `i` being element `i + 1` of the data |
| JobScraper.Tags | scraper/job_scraper.py:108-113 | no tags for a missing list; otherwise the first ten of the truthy tags, in their order (all of them when fewer) |
| JobScraper.Job | scraper/job_scraper.py:102-156 | an entry gives a row exactly when id, position and company are truthy; the row has a category and job type from their enums, at most ten tags, source 'remoteok', and is published at `epoch`, else `date`, else now |
| JobScraper.SameEntriesAsCron | scraper/job_scraper.py:104-150 | the Python scraper keeps exactly the entries the cron function keeps, with the same title, company, category, tags, job type, source id and salary bounds |
| JobScraper.EmptyDescriptionDiffers | scraper/job_scraper.py:137 | an empty description stays empty here, where the cron function writes 'No description provided.' |
| JobScraper.Jobs | scraper/job_scraper.py:100-156 | no more rows than entries, each with at most ten tags and a category from the enum |
| JobScraper.ScrapeRemoteOk | scraper/job_scraper.py:84-170 | the loop computes the rows of the batch, nothing when the request raised, and at most 50 of them |
| JobScraper.TallyBound | scraper/job_scraper.py:183-205 | inserted + duplicates + errors is at most the number of jobs, with equality exactly when no insert returned an empty `response.data` |
| JobScraper.InsertJobs | scraper/job_scraper.py:173-207 | the counters are the tally of the replies and count each job at most once |
| RssScraper.StripStart | scraper/main.py:71 | the leading-whitespace cut of `strip()` is a suffix of the text that does not start with whitespace, and every character it drops is whitespace |
| RssScraper.StripEnd | scraper/main.py:71 | the trailing-whitespace cut of `strip()` is a prefix of the text that does not end with whitespace, and every character it drops is whitespace |
| RssScraper.Strip | scraper/main.py:71 | `strip()` is a contiguous middle of the text with no whitespace at either end, and everything cut before and after it is whitespace |
| RssScraper.StripInside | scraper/main.py:71 | stripping the front of the end-stripped text cuts only whitespace of the original text on either side |
| RssScraper.StripUnpadded | scraper/main.py:71 | text without whitespace at its ends is its own `strip()` |
| RssScraper.NormalizeJobType | scraper/main.py:66-80 | the result is Full-time, Part-time or Contract, and Full-time for empty input |
| RssScraper.JobTypeOf | scraper/main.py:73-80 | the tests on the cleaned text give one of those three |
| RssScraper.NeverFreelance | scraper/main.py:66-80 | this normaliser never returns 'Freelance' |
| RssScraper.FreelanceIsContract | scraper/main.py:77-78 | 'freelance' is filed as Contract here, where the cron function's normaliser gives Freelance |
| RssScraper.NormalizeCategory | scraper/main.py:82-91 | the result is one of the eight categories |
| RssScraper.MappedCategory | scraper/main.py:87-91 | the key loop gives one of the eight categories |
| RssScraper.NormalizeCategoryOther | scraper/main.py:82-91 | 'Other' comes out exactly when the input is empty or its lower-cased, stripped text contains no key of `CATEGORY_MAP` |
| RssScraper.MappedOther | scraper/main.py:88-91 | the key loop gives 'Other' exactly when no key occurs |
| RssScraper.RemoveTags | scraper/main.py:100 | `re.sub(r'<[^>]+>', '', text)` is no longer than the text and keeps only characters of the text |
| RssScraper.RemoveTagsLeavesNoTag | scraper/main.py:100 | no `<[^>]+>` match is left after the substitution |
| RssScraper.RemoveTagsNoTag | scraper/main.py:100 | text without a match passes through unchanged |
| RssScraper.RemoveTagsIdempotent | scraper/main.py:100 | applying the substitution twice is the same as once |
| RssScraper.ReplaceAbsent | scraper/main.py:101-104 | `replace` of an absent pattern changes nothing |
| RssScraper.Word | scraper/main.py:105 | a word of `split()` is a whitespace-free prefix ending at whitespace or at the end |
| RssScraper.Words | scraper/main.py:105 | `split()` gives non-empty, whitespace-free words which, joined back together, are exactly the text's non-whitespace characters in order |
| RssScraper.WordsAreRuns | scraper/main.py:105 | every word of `split()` is a maximal run of non-whitespace characters of the text, with whitespace or an end of the text on either side |
| RssScraper.NonSpacePrefix | scraper/main.py:105 | a whitespace-free prefix keeps all its characters among the text's non-whitespace characters, ahead of the rest |
| RssScraper.JoinWordsNormalized | scraper/main.py:105 | `' '.join` of such words has no whitespace at its ends and only single spaces between words |
| RssScraper.StripNormalized | scraper/main.py:105-106 | the final `strip()` of normalised text changes nothing |
| RssScraper.CleanHtml | scraper/main.py:93-106 | the result has no leading or trailing whitespace and no whitespace runs, and is '' for empty input |
| RssScraper.EscapedTagSurvives | scraper/main.py:100-104 | tags are removed before entities are decoded, so `&lt;b&gt;` comes out as `<b>` |
| RssScraper.Terms | scraper/main.py:136-141 | the collected tag terms are non-empty and no more than the tags |
| RssScraper.LastCategoryDefault | scraper/main.py:135-145 | with no term normalising to something other than 'Other', the category stays `default_category` |
| RssScraper.LastCategoryLast | scraper/main.py:138-145 | otherwise the last such term decides the category |
| RssScraper.Header | scraper/main.py:116-122 | an entry passes the first checks exactly when title, author and link strip without raising and neither title nor link is empty; the title and link it yields are not empty |
| RssScraper.ParsedRejects | scraper/main.py:121-122 | an entry whose stripped title or link is empty gives no record |
| RssScraper.ParsedShape | scraper/main.py:112-163 | a parsed record has a non-empty title and link, `source_id` the hash of the link, location 'Worldwide', job type Full-time, a description that is a prefix of at most 5000 characters of the cleaned description, and at most ten non-empty tags |
| RssScraper.BuildShape | scraper/main.py:148-161 | the built record takes its title and link from the header, at most ten tags from the start of the terms, and the fixed location and job type |
| RssScraper.FullTime | scraper/main.py:153 | `normalize_job_type('Full-time')` is Full-time |
| RssScraper.ParseRssEntry | scraper/main.py:112-167 | the method computes the parsed record, or nothing for a rejected or failing entry |
| RssScraper.TagLoop | scraper/main.py:135-145 | the loop succeeds exactly when no tag raises, and then yields the collected terms and the category of the last term that is not 'Other' |
| RssScraper.FeedJobs | scraper/main.py:184-187 | no more records than entries |
| RssScraper.FetchRssFeed | scraper/main.py:169-194 | the loop keeps the parsed records of the entries in order, nothing for a feed that raised or has no entries |
| RssScraper.InsertJob | scraper/main.py:196-213 | `insert_job` is true exactly when the insert returned, false for a duplicate and for any other error alike |
| RssScraper.SkippedAreFailures | scraper/main.py:229-241 | the inserted count is at most the fetched count, and fetched minus inserted is exactly the number of failed inserts, genuine errors included |
| RssScraper.RunScraper | scraper/main.py:215-241 | `main` fetches every source's records, counts the successful inserts, and reports their difference as duplicates, which equals the failures |
| RssScraper.RunSources | scraper/main.py:225-235 | the source loop adds up the fetched records and the successful inserts |
| RssScraper.InsertAll | scraper/main.py:230-232 | the insert loop adds the successes of one source's records to the running total |
| Recommendations.SavedData | src/hooks/useJobRecommendations.ts:107 | the saved jobs' data holds exactly the jobs present in the saved rows |
| Recommendations.Categories | src/hooks/useJobRecommendations.ts:110 | the saved categories, one per saved job, in order |
| Recommendations.Companies | src/hooks/useJobRecommendations.ts:119 | the saved companies, one per saved job, in order |
| Recommendations.RemoteTypes | src/hooks/useJobRecommendations.ts:126 | the saved remote types are exactly the truthy remote types of the saved jobs |
| Recommendations.SavedColumns | src/hooks/useJobRecommendations.ts:106-132 | the three `includes` tests on the saved columns hold exactly when some saved job shares the job's category, company, or (truthy) remote type |
| Recommendations.ScoreJob | src/hooks/useJobRecommendations.ts:63-155 | one call of the scoring closure gives the job with its score and reasons, computed with the corrected salary rule of `Recommendations.Score` (see Findings) |
| Recommendations.MatchPreferences | src/hooks/useJobRecommendations.ts:74-103 | the preference block adds 50, 30 and 20 points with their reasons for a matching category, remote type and company size, and 25 for the salary under the corrected rule of `Recommendations.Score` (see Findings; as written the salary rule never fires) |
| Recommendations.PreferenceReasonsMention | src/hooks/useJobRecommendations.ts:77-87 | the category and remote-type reasons appear exactly when those preferences match |
| Recommendations.MatchSavedJobs | src/hooks/useJobRecommendations.ts:106-133 | the saved-jobs block adds 40, 30 and 15 points for a saved job's category, company and remote type, naming a reason only where the preference reason is absent |
| Recommendations.Boost | src/hooks/useJobRecommendations.ts:135-152 | featured adds 10; less than three days adds 15, else less than seven days adds 10 |
| Recommendations.ScoreRange | src/hooks/useJobRecommendations.ts:63-155 | under the corrected salary rule (see Findings), a saved job scores -1000; any other job scores between 0 and the sum of all bonuses |
| Recommendations.ScoredIffExplained | src/hooks/useJobRecommendations.ts:63-155 | an unsaved job scores above 0 exactly when it has a reason |
| Recommendations.AlreadySavedMarksSaved | src/hooks/useJobRecommendations.ts:68-71 | the reason 'Already saved' appears exactly for saved jobs |
| Recommendations.SimilarOnlyWithoutPreference | src/hooks/useJobRecommendations.ts:111-115 | 'Similar to jobs you saved' appears exactly for an unsaved job sharing a saved category when the category preference did not match |
| Recommendations.SalaryBonusLost | src/hooks/useJobRecommendations.ts:96-102 | the corrected score exceeds the as-written score by 25 exactly when the preferred `salary_min` is met by the job's `salary_max`; the salary reason appears exactly then |
| Recommendations.JobsOf | src/hooks/useJobRecommendations.ts:175-180 | `map((r) => r.job)` keeps the jobs in order |
| Recommendations.ScoreAll | src/hooks/useJobRecommendations.ts:63 | `allJobs.map(closure)`: one scored entry per job, in order |
| Recommendations.Recommend | src/hooks/useJobRecommendations.ts:60-180 | no jobs without `allJobs`; otherwise the positive scores (under the corrected salary rule, see Findings) best first cut to `limit`, followed, when fewer than `limit`, by the trending jobs |
| Recommendations.ScoreEach | src/hooks/useJobRecommendations.ts:63-155 | the map loop computes the scored list |
| Recommendations.JobsOfAppend | src/hooks/useJobRecommendations.ts:174-177 | the jobs of the concatenation are the concatenation of the jobs |
| Recommendations.ScoreAllConsistent | src/hooks/useJobRecommendations.ts:63-155 | every scored entry carries its job's own score and reasons |
| Recommendations.PickedMember | src/hooks/useJobRecommendations.ts:158-172 | what filter, sort and slice return passed the filter and comes from the input |
| Recommendations.RankedLength | src/hooks/useJobRecommendations.ts:158-180 | at most `limit` jobs are returned |
| Recommendations.RankedNeverSaved | src/hooks/useJobRecommendations.ts:158-166 | no returned job is a saved one |
| Recommendations.PersonalOrder | src/hooks/useJobRecommendations.ts:158-161 | the personal part has only positive scores, in non-increasing order |
| Recommendations.TrendingOrder | src/hooks/useJobRecommendations.ts:165-172 | the trending part has only zero scores, newest first |
| Recommendations.RankedOrder | src/hooks/useJobRecommendations.ts:158-177 | the result is the positive scores in non-increasing order followed only by zero-score jobs, newest first |
| Recommendations.TrendingAfterAllScored | src/hooks/useJobRecommendations.ts:164 | trending jobs are added only once every positively scored job is already in the list |
| Analytics.CountOfIsGroupSize | src/hooks/useJobAnalytics.ts:67-72 | `counts[k] \|\| 0` after the counting loop is the number of rows with key k |
| Analytics.CountsAreGroupSizes | src/hooks/useJobAnalytics.ts:67-72 | each counted key's count is the positive number of rows carrying it |
| Analytics.CountCategories | src/hooks/useJobAnalytics.ts:67-72 | the `forEach` loop computes the category counts of the rows with a truthy category |
| Analytics.CategoryCountsMeaning | src/hooks/useJobAnalytics.ts:67-80 | the keys are the truthy categories in first-seen order, each counted by the number of its rows, and the counts sum to the number of such rows |
| Analytics.GrowthSign | src/hooks/useJobAnalytics.ts:85-91 | growth is 100 for a category new in this period; otherwise it is positive, zero or negative exactly when the count rose, stayed or fell |
| Analytics.Growths | src/hooks/useJobAnalytics.ts:83-95 | one entry per counted category, in key order, with its count and its growth against the previous count (0 when absent) |
| Analytics.TrendingCategoriesQuery | src/hooks/useJobAnalytics.ts:66-98 | the query body computes the trending categories |
| Analytics.TrendingCategoriesSorted | src/hooks/useJobAnalytics.ts:98 | the trending categories are in non-increasing count order |
| Analytics.TrendingCategoryEntry | src/hooks/useJobAnalytics.ts:67-95 | each entry's count is its positive number of current rows, and its growth compares it with its previous rows, 100 when there were none |
| Analytics.GroupLocations | src/hooks/useJobAnalytics.ts:125-135 | the `forEach` loop computes the location groups, an empty or missing location grouped as 'Not specified' |
| Analytics.SalariesOf | src/hooks/useJobAnalytics.ts:131-134 | one `{min, max}` pair per row, in order |
| Analytics.FoldLocation | src/hooks/useJobAnalytics.ts:127-134 | a location's group counts its rows and holds their salary pairs in order |
| Analytics.Mins | src/hooks/useJobAnalytics.ts:140-141 | the minimum of each pair, in order |
| Analytics.Maxs | src/hooks/useJobAnalytics.ts:143-144 | the maximum of each pair, in order |
| Analytics.Known | src/hooks/useJobAnalytics.ts:142-145 | the non-null values; none exactly when every value is null |
| Analytics.KnownAppend | src/hooks/useJobAnalytics.ts:142-145 | the null filter keeps order and multiplicity: the known values of a concatenation are those of its first part, then those of its second |
| Analytics.MeanBounds | src/hooks/useJobAnalytics.ts:147-154 | an average lies between the smallest and largest possible value |
| Analytics.LocationEntries | src/hooks/useJobAnalytics.ts:138-163 | one insight per group with its count and the averages of its known minimums and maximums |
| Analytics.LocationInsightsQuery | src/hooks/useJobAnalytics.ts:116-166 | the query body computes the location insights |
| Analytics.LocationInsightsSorted | src/hooks/useJobAnalytics.ts:166 | location insights are in non-increasing count order |
| Analytics.LocationGroupAt | src/hooks/useJobAnalytics.ts:125-135 | each group's key is a non-empty location holding exactly the count and salaries of its rows |
| Analytics.NoAverageIffUnknown | src/hooks/useJobAnalytics.ts:147-154 | an average is null exactly when every row of the group has a null value |
| Analytics.LocationInsightEntry | src/hooks/useJobAnalytics.ts:125-163 | each insight counts the rows of its location, averages their known salaries, and has a null average exactly when none is known |
| Analytics.GroupCompanies | src/hooks/useJobAnalytics.ts:196-212 | the `forEach` loop computes the company groups |
| Analytics.FoldCompany | src/hooks/useJobAnalytics.ts:198-211 | a company's group counts its rows, is featured when any row is, and takes logo, url and size from its first row |
| Analytics.CompanyEntries | src/hooks/useJobAnalytics.ts:214-223 | one insight per group carrying the group's fields |
| Analytics.CompanyInsightsQuery | src/hooks/useJobAnalytics.ts:184-230 | the query body computes the company insights |
| Analytics.CompanyInsightsSorted | src/hooks/useJobAnalytics.ts:226-230 | featured companies come first, then non-increasing job count within each kind |
| Analytics.CompanyGroupsCover | src/hooks/useJobAnalytics.ts:196-212 | the companies in first-seen order, with counts summing to the number of rows |
| Analytics.CompanyGroupAt | src/hooks/useJobAnalytics.ts:196-212 | each group holds its rows' count, whether any is featured, and its first row's logo, url and size |
| Analytics.CompanyInsightEntry | src/hooks/useJobAnalytics.ts:196-223 | each insight's count is its positive number of rows, it is featured exactly when some row is, and its logo, url and size are the first row's |
| Analytics.CountDates | src/hooks/useJobAnalytics.ts:254-258 | the `forEach` loop computes the counts per UTC day |
| Analytics.Window | src/hooks/useJobAnalytics.ts:261-269 | `days` entries, none for a non-positive `days` |
| Analytics.FillDays | src/hooks/useJobAnalytics.ts:261-269 | the `for` loop computes the gap-filled window |
| Analytics.JobTrendsQuery | src/hooks/useJobAnalytics.ts:241-271 | the query body computes the trends |
| Analytics.TrendsMeaning | src/hooks/useJobAnalytics.ts:241-269 | exactly `days` entries for consecutive days from `startDate`, each with the number of rows of its day (0 for none), the last being the day before now |
| Analytics.SalaryRows | src/hooks/useJobAnalytics.ts:300-307 | rows without category or with a null bound are skipped; the rest have a category and a currency ('USD' by default) |
| Analytics.GroupSalaries | src/hooks/useJobAnalytics.ts:300-314 | the `forEach` loop computes the two-level category and currency map |
| Analytics.SalaryMapStep | src/hooks/useJobAnalytics.ts:300-314 | one more row either leaves the map alone or adds its bounds under its category and currency |
| Analytics.FoldCurrencies | src/hooks/useJobAnalytics.ts:303-313 | a category's entry is the per-currency grouping of its rows |
| Analytics.MinsOf | src/hooks/useJobAnalytics.ts:312 | the pushed minimums, in order |
| Analytics.MaxsOf | src/hooks/useJobAnalytics.ts:313 | the pushed maximums, in order |
| Analytics.FoldLists | src/hooks/useJobAnalytics.ts:308-313 | a currency's lists hold the minimums and maximums of its rows in order |
| Analytics.SalaryMapAt | src/hooks/useJobAnalytics.ts:300-314 | each cell of the map holds exactly the bounds of the rows of its category and currency, and none is empty |
| Analytics.CellRow | src/hooks/useJobAnalytics.ts:301-307 | a non-empty cell has a non-empty category and currency |
| Analytics.SalaryMapFilled | src/hooks/useJobAnalytics.ts:308-313 | no list of the map is empty, so every average is defined |
| Analytics.CurrencyInsights | src/hooks/useJobAnalytics.ts:319-331 | one insight per currency with the averages of its lists |
| Analytics.FlattenMember | src/hooks/useJobAnalytics.ts:317-332 | every insight is the averages of some cell of the map |
| Analytics.Averages | src/hooks/useJobAnalytics.ts:317-332 | the nested `forEach` loops push one insight per cell, in map order |
| Analytics.SalaryInsightsQuery | src/hooks/useJobAnalytics.ts:291-335 | the query body computes the salary insights |
| Analytics.SalaryInsightsSorted | src/hooks/useJobAnalytics.ts:335 | salary insights are in non-increasing order of average maximum |
| Analytics.SalaryInsightEntry | src/hooks/useJobAnalytics.ts:300-331 | each insight averages the bounds of the rows of its category and currency, which are not empty |
| Analytics.GroupFeatured | src/hooks/useJobAnalytics.ts:365-376 | the `forEach` loop computes the featured company groups |
| Analytics.FoldFeatured | src/hooks/useJobAnalytics.ts:367-375 | a company's group counts its rows and takes logo, url and size from its first row |
| Analytics.FeaturedEntries | src/hooks/useJobAnalytics.ts:378-387 | one insight per group, always featured |
| Analytics.FeaturedCompaniesQuery | src/hooks/useJobAnalytics.ts:352-392 | the query body computes the featured companies, none without data |
| Analytics.FeaturedCompaniesShape | src/hooks/useJobAnalytics.ts:378-392 | at most `limit` companies, all featured, in non-increasing job count order |
| Analytics.FeaturedGroupAt | src/hooks/useJobAnalytics.ts:365-376 | each group holds its rows' count and its first row's logo, url and size |
| Analytics.FeaturedCompanyEntry | src/hooks/useJobAnalytics.ts:365-387 | each returned company counts its rows and carries its first row's logo, url and size |
| Dict.Keys | src/hooks/useJobAnalytics.ts:83 | `Object.entries(...)` keys: one per entry, in order |
| Dict.Values | src/hooks/useJobAnalytics.ts:83 | the values: one per entry, in order |
| Dict.Find | src/hooks/useJobAnalytics.ts:70 | `m[k]` is undefined exactly when k is not a key |
| Dict.Upsert | src/hooks/useJobAnalytics.ts:70 | `m[k] = v` keeps the key order of an existing key and appends a new key at the end |
| Dict.FindUpsert | src/hooks/useJobAnalytics.ts:70 | after `m[k] = v`, `m[k]` is v and every other key reads as before |
| Dict.FindAt | src/hooks/useJobAnalytics.ts:83-85 | with distinct keys, looking up an entry's key finds its value |
| Dict.AggregateStep | src/hooks/useJobAnalytics.ts:125-135 | one more row updates its key's value with the step, starting from the initial value when the key is new |
| Dict.AggregateFilterStep | src/hooks/useJobAnalytics.ts:68-72 | one more row that passes the test updates its key; one that fails changes nothing |
| Dict.KeysOf | src/hooks/useJobAnalytics.ts:70 | the key of each row, in order |
| Dict.Select | src/hooks/useJobAnalytics.ts:68-72 | the rows with a given key are no more than the rows |
| Dict.AggregateKeys | src/hooks/useJobAnalytics.ts:68-72 | the keys of the grouped object are the row keys in first-seen order without repeats |
| Dict.AggregateFind | src/hooks/useJobAnalytics.ts:125-135 | a key's value is the fold of the step over exactly the rows with that key |
| Dict.AggregateNoDup | src/hooks/useJobAnalytics.ts:68-72 | the grouped object has no repeated key |
| Dict.AggregateAt | src/hooks/useJobAnalytics.ts:125-135 | each entry's value is the fold over the rows with its key |
| Dict.GroupsPartition | src/pages/Company.tsx:32-39 | the groups of the distinct keys together hold every row once |
| Dict.SelectEmpty | src/hooks/useJobAnalytics.ts:85 | a key no row carries selects no rows |
| Dict.SelectAll | src/hooks/useJobAnalytics.ts:68-72 | every selected row has the selected key |
| Dict.SelectMembers | src/hooks/useJobAnalytics.ts:68-72 | every selected row is one of the rows |
| Dict.TotalUpsert | src/hooks/useJobAnalytics.ts:70 | overwriting a key changes the sum of the values by the new value less the old |
| Dict.AggregateTotal | src/hooks/useJobAnalytics.ts:196-212 | when each step adds one to a count, the counts of all groups sum to the number of rows |
| Dict.FoldCount | src/hooks/useJobAnalytics.ts:207 | such a count, folded over a group, is the number of its rows |
| Sorting.Insert | src/hooks/useJobAnalytics.ts:98 | inserting adds exactly the element to the contents |
| Sorting.SortBy | src/hooks/useJobAnalytics.ts:98 | `Array.prototype.sort` returns a permutation of its input |
| Sorting.InsertSorted | src/hooks/useJobAnalytics.ts:98 | inserting into a sorted list under a strict order keeps it sorted |
| Sorting.SortBySorted | src/hooks/useJobAnalytics.ts:98 | the result is sorted under a strict order |
| Sorting.SortByMembers | src/hooks/useJobAnalytics.ts:98 | every element of the result comes from the input |
| Sorting.SortByStable | src/hooks/useJobAnalytics.ts:98 | the sort is stable: for a comparator that is a strict weak order, the elements tied with any given one come out in their input order |
| Sorting.InsertTied | src/hooks/useJobAnalytics.ts:98 | inserting an element into a sorted list places it after every element it ties with |
| Sorting.InsertOther | src/hooks/useJobAnalytics.ts:98 | inserting an element leaves the order of the other elements as it was |
| Sorting.SortedSlice | src/hooks/useJobAnalytics.ts:390-392 | `slice(0, n)` of a sorted list is sorted |
| Util.OrElse | api/scrape-jobs.ts:132-136 | `f \|\| fallback` is non-empty whenever the fallback is |
| Util.Lower | api/scrape-jobs.ts:72 | `toLowerCase()` maps every character, keeping the length |
| Util.Upper | src/utils/seo.ts:156 | `toUpperCase()` maps every character, keeping the length |
| Util.UpperConcat | src/utils/seo.ts:156 | upper-casing distributes over concatenation |
| Util.LowerIgnoresCase | api/scrape-jobs.ts:84 | lower-casing is idempotent and forgets a prior upper-casing |
| Util.ContainsMiddle | src/hooks/useAlgoliaSearch.ts:102-105 | a text contains every part placed inside it |
| Util.JoinEndsWithLast | src/hooks/useAlgoliaSearch.ts:102-105 | `join(sep)` ends with the last part |
| Util.JoinContains | src/hooks/useAlgoliaSearch.ts:102-105 | `join(sep)` contains every part |
| Util.Take | scraper/job_scraper.py:111 | `[:n]` has `min(n, len)` elements, the first ones |
| Util.Slice | src/hooks/useJobRecommendations.ts:161 | `slice(0, end)` is a prefix of the length JavaScript gives, a negative end counting from the back |
| Util.Filter | src/hooks/useJobRecommendations.ts:159 | `filter(p)` keeps exactly the elements satisfying p, taken from the input |
| Util.FilterAppend | src/hooks/useJobRecommendations.ts:159 | `filter(p)` keeps order and multiplicity: the kept elements of a concatenation are those of its first part, then those of its second |
| Util.NonEmpty | src/pages/Company.tsx:49 | `filter(Boolean)` on strings keeps exactly the non-empty ones |
| Util.NonEmptyAppend | src/pages/Company.tsx:49 | `filter(Boolean)` keeps order: the kept items of a concatenation are those of the first part, then those of the second |
| Util.Dedupe | src/pages/Company.tsx:49 | `[...new Set(s)]` has no repeats and the same members as s |
| Util.DedupeFirstSeenOrder | src/pages/Company.tsx:49 | `[...new Set(s)]` lists the members in order of first occurrence |
| Util.NatToString | src/components/JobCard.tsx:33-34 | a number prints as a non-empty string of decimal digits |
| Util.NatToStringRoundTrip | src/components/JobCard.tsx:33-34 | reading the printed digits back gives the number |
| Util.IntToStringInjective | src/components/JobCard.tsx:32 | different integers print differently |
| JobCard.SalaryPart | src/components/JobCard.tsx:17-18 | a bound's part is non-empty exactly when the bound is truthy (present and non-zero) |
| JobCard.FormatSalaryCases | src/components/JobCard.tsx:14-22 | null exactly when both bounds are falsy; with both, `"<cur> <min> - <cur> <max>"`; with one, only that part |
| JobCard.DaysBetweenFloor | src/components/JobCard.tsx:27-28 | `Math.floor(diff / 86400000)` is the whole number of days elapsed, rounded down |
| JobCard.AgeTextBuckets | src/components/JobCard.tsx:30-34 | 0 is Today, 1 Yesterday, others below 7 "N days ago", 7 to 29 "1 to 4 weeks ago", 30 and up "N months ago" with N at least 1 |
| JobCard.FutureDate | src/components/JobCard.tsx:28-32 | a date later than now gives a negative day count, shown as "-N days ago" |
| JobsPage.TotalPagesBounds | src/pages/Jobs.tsx:21-32 | no data gives 0 pages; otherwise the pages hold every job and the last page is not empty |
| JobsPage.ShownRange | src/pages/Jobs.tsx:113 | on an existing page "Showing a - b of n" has 1 ≤ a ≤ b ≤ n, at most 20 positions, and b reaches n exactly on the last page |
| JobsPage.Pager.constructor | src/pages/Jobs.tsx:19 | the page starts at 0 with no data |
| JobsPage.Pager.Load | src/pages/Jobs.tsx:24-32 | a query result replaces the count and keeps the page |
| JobsPage.Pager.Previous | src/pages/Jobs.tsx:125-129 | a click does nothing on page 0 (disabled) and otherwise moves one page back, never below 0 |
| JobsPage.Pager.Next | src/pages/Jobs.tsx:137-141 | a click does nothing on the last page or beyond (disabled) and otherwise moves one page on, staying within the pages |
| JobsPage.ButtonsStayOnPages | src/pages/Jobs.tsx:123-141 | from any page of the result, an enabled button leads to a page of the result |
| AdvancedFilters.Without | src/components/AdvancedFilters.tsx:81 | `filter(c => c !== v)` keeps exactly the elements other than v |
| AdvancedFilters.WithoutAppend | src/components/AdvancedFilters.tsx:81 | removal keeps the other elements in order: it distributes over concatenation |
| AdvancedFilters.Toggle | src/components/AdvancedFilters.tsx:78-88 | an absent value is appended; a present one is removed everywhere; an empty result is stored as `undefined`, never `[]` |
| AdvancedFilters.WithoutAbsent | src/components/AdvancedFilters.tsx:81 | removing an absent value changes nothing |
| AdvancedFilters.WithoutLength | src/components/AdvancedFilters.tsx:81 | removal shortens the list by the number of occurrences |
| AdvancedFilters.ToggleTwiceAbsent | src/components/AdvancedFilters.tsx:78-88 | toggling an absent value twice restores the list (with `[]` read as `undefined`) |
| AdvancedFilters.ToggleTwicePresent | src/components/AdvancedFilters.tsx:78-88 | toggling a present value twice restores membership, with the value once and last |
| AdvancedFilters.ToggleLength | src/components/AdvancedFilters.tsx:78-88 | a toggle adds one to the list's length or removes the value's occurrences |
| AdvancedFilters.ToggleCategory | src/components/AdvancedFilters.tsx:78-88 | `toggleCategory` toggles the categories and leaves every other filter field as it was |
| AdvancedFilters.ToggleRemoteType | src/components/AdvancedFilters.tsx:90-100 | `toggleRemoteType` is the same toggle on the remote types, the other fields unchanged |
| AdvancedFilters.ToggleCompanySize | src/components/AdvancedFilters.tsx:102-112 | `toggleCompanySize` is the same toggle on the company sizes, the other fields unchanged |
| AdvancedFilters.SalaryChange | src/components/AdvancedFilters.tsx:69-76 | the slider pair is stored; 0 maps `salaryMin` and 300000 maps `salaryMax` to `undefined`, other values pass through, the lists unchanged |
| AdvancedFilters.SalaryRoundTrip | src/components/AdvancedFilters.tsx:64-76 | the slider re-initialised from the new filters shows the chosen pair exactly when the upper value is not 0 |
| AdvancedFilters.ToggleCategoryCount | src/components/AdvancedFilters.tsx:78-118 | toggling a category raises the active count by one or lowers it by the value's occurrences |
| AdvancedFilters.NoActiveFilters | src/components/AdvancedFilters.tsx:114-118 | the active count is 0 exactly when neither salary bound is truthy and all three lists are empty or absent |
| AlgoliaSearch.Terms | src/hooks/useAlgoliaSearch.ts:85-90 | one `field:"v"` term per value, in order |
| AlgoliaSearch.BuildFilterString | src/hooks/useAlgoliaSearch.ts:74-105 | the pushes compute the clauses joined by `' AND '` |
| AlgoliaSearch.FilterStringShape | src/hooks/useAlgoliaSearch.ts:74-105 | one clause per option that is set plus `is_active:true`, which always ends the string and is the whole string when nothing is set |
| AlgoliaSearch.SalaryClauses | src/hooks/useAlgoliaSearch.ts:94-103 | `salaryMin` gives `salary_max >= N` and `salaryMax` gives `salary_min <= N`, in that order after the other clauses, `is_active:true` last |
| AlgoliaSearch.ListClauses | src/hooks/useAlgoliaSearch.ts:76-87 | the category clause comes first; a non-empty remote-type list gives one parenthesised clause naming every value |
| AlgoliaSearch.CeilDivBounds | src/hooks/useAlgoliaSearch.ts:134 | `Math.ceil(count / hitsPerPage)` pages hold the count, and one page fewer would not |
| AlgoliaSearch.AlgoliaQuery | src/hooks/useAlgoliaSearch.ts:66-113 | the Algolia query answers null exactly when Algolia is off or the query is empty; otherwise it searches with pages of 20 hits, the `searchConfig` size that overrides the caller's |
| AlgoliaSearch.CallerPageSizeIgnored | src/hooks/useAlgoliaSearch.ts:108-113 | the caller's `hitsPerPage` has no effect on the Algolia query, because the `searchConfig` spread comes last |
| AlgoliaSearch.SearchDataMeaning | src/hooks/useAlgoliaSearch.ts:128-149 | with Algolia off or an empty query the fallback's jobs and count are returned with `ceil(count / hitsPerPage)` pages and time 0; otherwise the Algolia result of the query and filter string, asked with 20 hits per page |
| AlgoliaSearch.Titles | src/hooks/useAlgoliaSearch.ts:176 | the titles of the hits, in order |
| AlgoliaSearch.Companies | src/hooks/useAlgoliaSearch.ts:177 | the companies of the hits, in order |
| AlgoliaSearch.SuggestionsShape | src/hooks/useAlgoliaSearch.ts:159-180 | no suggestions for a query shorter than two characters; otherwise at most `limit`, no repeats, each a title or company of some hit |
| AlgoliaSearch.SuggestionsFirstSeen | src/hooks/useAlgoliaSearch.ts:159-180 | the suggestions are the first distinct titles and companies: fewer than `limit` means all of them appear, and any value left out first occurs later than every value kept |
| AlgoliaSearch.TitlesFirst | src/hooks/useAlgoliaSearch.ts:178 | a title suggestion comes before any suggestion that is only a company |
| AlgoliaSearch.FirstIndex | src/hooks/useAlgoliaSearch.ts:178 | the position of a member's first occurrence |
| InstantSearch.DownStaysInRange | src/components/InstantSearch.tsx:49-53 | ArrowDown keeps the highlight on a suggestion or none, moves one place down, and stays on the last suggestion |
| InstantSearch.UpStaysInRange | src/components/InstantSearch.tsx:55-57 | ArrowUp keeps the highlight in range, moves one place up, and clears it from the first suggestion or from none |
| InstantSearch.UpUndoesDown | src/components/InstantSearch.tsx:49-57 | ArrowUp after an ArrowDown that moved returns to the same highlight |
| InstantSearch.DownsFromNone | src/components/InstantSearch.tsx:49-53 | k ArrowDowns from no highlight reach suggestion `min(k, count) - 1` |
| InstantSearch.SearchBox.constructor | src/components/InstantSearch.tsx:22-36 | not focused, nothing highlighted, no search made |
| InstantSearch.SearchBox.Focus | src/components/InstantSearch.tsx:114 | focusing sets the focus flag and changes nothing else |
| InstantSearch.SearchBox.ClickOutside | src/components/InstantSearch.tsx:85-98 | a click outside clears the focus only while the dropdown is rendered, since the handler needs `suggestionsRef`; otherwise the focus stays. The dropdown is hidden after it either way |
| InstantSearch.SearchBox.Change | src/components/InstantSearch.tsx:109-112 | typing sets the text and clears the highlight |
| InstantSearch.SearchBox.SelectSuggestion | src/components/InstantSearch.tsx:75-82 | choosing a suggestion makes it the text, closes the dropdown, clears the highlight and searches for it when a search handler exists |
| InstantSearch.SearchBox.KeyDown | src/components/InstantSearch.tsx:38-72 | keys do nothing unless the dropdown shows; then the arrows move the highlight, Enter picks the highlighted suggestion or searches for the text, Escape closes the dropdown |
| Seo.PageTitleShape | src/utils/seo.ts:19-22 | the title always ends with the site name, begins with the page title and `' \| '` when one is given, and is the site name alone exactly for an empty page title |
| Seo.PageTitleInjective | src/utils/seo.ts:19-22 | different page titles give different document titles |
| Seo.ListingKeywordsShape | src/utils/seo.ts:95-111 | four base keywords, then two for a category (its lower case first), one for a search term and, last, the lower-cased job type |
| Seo.ListingTitleChoice | src/utils/seo.ts:93-105 | a search term decides the title over a category; with neither the title is `Find Remote Jobs` |
| Seo.ReplaceFirst | src/utils/seo.ts:156 | `replace` with a string pattern keeps the length |
| Seo.ReplaceFirstMeaning | src/utils/seo.ts:156 | only the first occurrence is replaced, and text without one is unchanged |
| Seo.StripTags | src/utils/seo.ts:126 | removing tags never lengthens the text |
| Seo.StripTagsSubset | src/utils/seo.ts:126 | removing tags adds no character |
| Seo.StripTagsLeavesNoTag | src/utils/seo.ts:126 | no `<` is followed by a `>` in the result |
| Seo.StripTagsNoTag | src/utils/seo.ts:126 | text without a tag is left as it is |
| Seo.StripTagsIdempotent | src/utils/seo.ts:126 | removing tags twice is removing them once |
| Seo.DetailShape | src/utils/seo.ts:124-141 | the description is at most 160 characters without tags followed by `...`; keywords are title, company, category, `remote`, then the tags; an image exactly for a truthy logo URL |
| Seo.EmploymentTypePlain | src/utils/seo.ts:156 | a non-empty job type without a hyphen is upper-cased |
| Seo.EmploymentTypeHyphen | src/utils/seo.ts:156 | the first hyphen of a job type becomes an underscore, the rest is upper-cased |
| Seo.UpperAroundHyphen | src/utils/seo.ts:156 | upper-casing keeps a hyphen in place |
| Seo.UpperNoHyphen | src/utils/seo.ts:156 | upper-casing introduces no hyphen |
| Seo.PostingShape | src/utils/seo.ts:148-192 | a Worldwide job is Remote, Global and carries the applicant-location block, any other location is its own locality with neither; a salary exactly when both bounds are truthy, with those bounds, a currency and `YEAR` for yearly or the upper-cased period; an employment type is always present |
| Seo.BreadcrumbPositions | src/utils/seo.ts:215-226 | one item per crumb, in order, numbered 1 to n with the crumb's name and URL |
| Seo.LastModified | src/utils/seo.ts:245 | `updated_at`, else `created_at`, else now |
| Seo.JobPages | src/utils/seo.ts:243-248 | one page per job, in order |
| Seo.UrlEntries | src/utils/seo.ts:253-258 | one `<url>` element per page, in order |
| Seo.SitemapPagesShape | src/utils/seo.ts:235-249 | five undated static pages, then per job its `/jobs/<id>` page dated by its update, creation or now, priority 0.9, daily |
| Seo.UrlEntryLastmod | src/utils/seo.ts:255 | a dated page's element holds its `<lastmod>`; an undated one's is the same as with no date |
| Seo.UrlEntryShape | src/utils/seo.ts:253-258 | each element opens with `<url>` and the page's `<loc>` and closes with its priority and `</url>` |
| Seo.UrlSetShape | src/utils/seo.ts:251-259 | the document starts with the XML declaration and the `urlset` opening, and ends with `</urlset>` |
| Seo.UrlSetHoldsEveryPage | src/utils/seo.ts:251-259 | every page's element appears in the document |
| SitemapScript.BaseUrl | scripts/generate-sitemap.ts:13 | the configured base URL when it is set and non-empty, otherwise the default site URL |
| SitemapScript.JobPages | scripts/generate-sitemap.ts:52-57 | one page per fetched job, in order, with its `/jobs/<id>` URL and its date |
| SitemapScript.GenerateShape | scripts/generate-sitemap.ts:27-77 | a failed query gives no sitemap; otherwise `5 + jobs.length` URLs and a document that opens with the XML header, closes with `</urlset>` and holds every page's element |
| SitemapScript.StaticPagesDated | scripts/generate-sitemap.ts:43-59 | five static pages first; the first three dated now, `/saved` and `/preferences` undated |
| SitemapScript.JobPagesDated | scripts/generate-sitemap.ts:52-59 | the job pages follow the static ones in the jobs' order, with URL, `updated_at` → `created_at` → now, priority 0.9 and daily |
| SitemapScript.Stamps | scripts/generate-sitemap.ts:29 | the selected columns of each job, in order |
| SitemapScript.AgreesWithLibrary | scripts/generate-sitemap.ts:43-59 | the script's page list equals the library's except that its first three static pages are dated now |
| AlgoliaSync.Range | scripts/sync-algolia.ts:109-113 | `.range(from, to)` returns the rows from `from` through `to` inclusive that exist, none past the end |
| AlgoliaSync.FetchAll | scripts/sync-algolia.ts:103-130 | when no query fails the batches together are the whole table, fetched in `floor(n / 1000) + 1` queries; a failure stops the sync at the first failing query: the last query made failed and every earlier one succeeded |
| AlgoliaSync.Records | scripts/sync-algolia.ts:141-144 | one record per job, in order, keeping the job and taking its id as `objectID` |
| AlgoliaSync.PushSlice | scripts/sync-algolia.ts:151-153 | one more slice of at most 1000 records starting where the last ended keeps every chunk a slice at its position |
| AlgoliaSync.ConcatSnoc | scripts/sync-algolia.ts:151-153 | joining the chunks after one more is pushed appends that chunk |
| AlgoliaSync.ConcatPush | scripts/sync-algolia.ts:151-153 | pushing the next slice extends the joined prefix to the slice's end |
| AlgoliaSync.Chunk | scripts/sync-algolia.ts:148-153 | `ceil(n / 1000)` non-empty chunks of at most 1000 records, chunk k the records from `k * 1000`, which joined give back the records |
| AlgoliaSync.Sync | scripts/sync-algolia.ts:100-159 | the upload happens exactly when no query fails; it uploads every job's record once, in order, in `ceil(n / 1000)` batches of at most 1000, and nothing for an empty table |
| CompanyPage.GroupByCategory | src/pages/Company.tsx:31-39 | the loop builds the category groups that `JobsByCategory` defines |
| CompanyPage.FoldPush | src/pages/Company.tsx:35-38 | pushing every job of a group onto an empty list gives the group itself |
| CompanyPage.CategoryGroupsPartition | src/pages/Company.tsx:31-39 | one group per category in first-seen order; the groups are exactly the jobs of their category, none is empty, and their sizes add up to the job count |
| CompanyPage.NoCategoryIsOther | src/pages/Company.tsx:34 | a job without a category is grouped under `Other`, any other under its category |
| CompanyPage.CountRemoteTypes | src/pages/Company.tsx:41-46 | the loop builds the counts that `JobsByRemoteType` defines |
| CompanyPage.RemoteCountsPartition | src/pages/Company.tsx:41-46 | one positive count per remote type in first-seen order, each the number of jobs of that type (`not-specified` when missing), adding up to the job count |
| CompanyPage.RemoteLabel | src/pages/Company.tsx:145 | every hyphen of the remote type becomes a space and nothing else changes |
| CompanyPage.ListingsSorted | src/pages/Company.tsx:121-141 | both cards list their entries by decreasing size, as a permutation of the groups |
| CompanyPage.LocationsMeaning | src/pages/Company.tsx:49 | the locations are the jobs' non-empty locations, each once |
| CompanyPage.MoreTextShape | src/pages/Company.tsx:169 | `+n more location`, with `s` exactly when n is not 1 |
| CompanyPage.LocationCardShape | src/pages/Company.tsx:161-171 | at most the first five locations; a "more" line exactly when there are more than five, counting the hidden ones |

## Left out

- Network and database calls are inputs. This covers HTTP fetches, `feedparser.parse`, Supabase queries and their filters, ordering, limits and date bounds, and Algolia `search`/`saveObjects`. An error a query throws is not modelled, except the Algolia sync's failing `range` query (`failing(k)`), the sitemap script's failed query and the feed parser's failure.
- `deactivateOldJobs` (api/scrape-jobs.ts, scraper/job_scraper.py) is not part of this model: it is a single database UPDATE with no local logic.
- The unauthenticated branch of `useJobRecommendations` is not part of this model: it returns the database's newest active jobs as they come.
- Algolia `setSettings` and the final statistics search of the sync script have no local logic and are not part of this model.
- Writing `public/sitemap.xml` (`writeFileSync`), console output, `process.exit`, environment checks, `time.sleep` and `setTimeout` between sources, the suggestion debounce and react-query caching are left out. They are side effects with no bearing on the values computed.
- `updateMetaTags` and `injectStructuredData` mutate the DOM, and rendering in general (JSX) is presentation. Both are left out.
- Case mapping is ASCII only. `toLowerCase`, `toUpperCase`, `lower()` and `upper()` on non-ASCII letters are not modelled, because Dafny has no Unicode tables.
- `RssScraper.IsSpace` is Python's `str.isspace` over the whole Unicode whitespace set, so `strip()` and `split()` are modelled for every character; only case mapping (above) and string lengths (below) are limited.
- String lengths count Dafny characters, not UTF-16 code units. This concerns the `value.length >= 2` test of the search box and suggestions, and the 160/5000-character truncations.
- Dates are integers. ISO-8601 parsing and printing, time zones and `NaN` dates from unparsable texts are parameters or left out. `md5` is an uninterpreted function.
- Salary averages and growth percentages are exact rationals (`real`). Floating-point rounding, `toFixed` and `toLocaleString` are not modelled.
- `Object.entries` lists integer-like keys first in numeric order. The model keeps insertion order for every key, which differs only for keys such as category names made of digits.
- `AlgoliaSearch.SearchDataMeaning`: requires a positive `hitsPerPage`. The source divides by it; a page size of 0 would give an infinite page count, which is not modelled.
- `Sorting.SortByStable`: requires the comparator to be a strict weak order, as every comparator of the front end (a numeric key, then a date) is. For an inconsistent comparator ECMAScript leaves the order to the implementation.
- `AlgoliaSync.Range`: requires `from <= to + 1`, which every call of the loop meets. Supabase's answer to a reversed range is not modelled.
- A stale suggestion list, shown while a new one is being fetched, is not modelled: the search box's suggestions are whatever its last `Change` supplied.
- Changing the search, category or job type on the jobs page does not reset `page` in the source. The pager keeps its page across `Load`, as the source does, and nothing more is modelled about the filters.
- Python `dict.get` with `None` values, and non-list tags, are modelled. Other dynamic type errors, such as a non-string title, are not: they would raise in the source.

## Findings

| source | as written | input that shows it | evidently intended | confidence | as-written member | corrected member |
|---|---|---|---|---|---|---|
| src/hooks/useJobRecommendations.ts:97-98 | the salary rule reads `preferences.min_salary`, but the `user_preferences` column is `salary_min` (src/integrations/supabase/types.ts:226), so the threshold is always `undefined` and the rule never fires | a preferences row with `salary_min = 100000` and an unsaved job with `salary_max = 120000`: no +25 and no "Meets your salary expectations" | award 25 points and the reason when the job's `salary_max` reaches the preferred `salary_min` | not executed | Recommendations.ScoreAsWritten | Recommendations.Score |
