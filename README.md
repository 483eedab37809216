# Job board client: job directory store, post form and listing views

This project models the client-side logic of a job-board web application.
Job seekers browse, search, like and apply to listings. Recruiters post and
delete their own listings. All data lives in a hosted backend's `jobs`
table. The model covers:

- the **job directory store** (`JobsContext.JobsProvider`). It holds `jobs`,
  `userJobs`, `loading`, `searchQuery`, `filters`, `minSalary` and
  `maxSalary`, and it fetches, searches, creates, likes, applies to and
  deletes listings. The backend table is a class of its own
  (`JobsContext.JobsTable`) whose rows are kept newest first;
- the **job-post form state** (`GlobalContext.GlobalContextProvider`): one
  field per input, `trimStart` normalisation of title and description, and
  a reset to the starting values;
- the **listing card** (`JobCardView`): badge colours, the salary suffix,
  the applicant label, description truncation and the bookmark flag
  (`LikeFlag`);
- the **"my jobs" card** (`MyJobView`): the same bookmark flag and the
  owner-only edit and delete controls;
- the **"my jobs" page** (`MyJobsPage`): the liked-jobs filter, the two tabs
  and the empty-state messages.

Each awaited backend call is an `Outcome` parameter (`Ok` or `Failed`). A
thrown exception and a returned error take the same path in the source, so
one outcome stands for both. Toast messages are returned as a `Notice`. The
page `createJob` navigates to is returned as a route. The signed-in
identity (`user`) and the profile row (`profile`) are `Option` parameters.
JavaScript truthiness is written out: `profile?.id` is true only for a
present, non-empty id (`Types.HasProfileId`), and a search argument applies
only when it is a non-empty string (`JobsContext.Given`).

`JobsContext.JobsProvider.Valid` is the schema invariant that no listing,
local or in the backend, holds a profile id twice among its likes or its
applicants. Every store operation preserves it.

Behaviour worth noting:

- `deleteJob` removes the listing from both local lists whenever the call
  reports no error, even if the owner-scoped delete matched no row.
- `likeJob` and `applyToJob` compute the written list from the LOCAL
  listing, not from the backend. Liking twice restores the backend's likes
  only when the re-fetch after the first like succeeded. If that re-fetch
  fails, the second like recomputes from the stale listing and writes
  "liked" again (`StoreScenarios.LikeTwice`).
- The "my jobs" page hides everything while the AUTHENTICATION service is
  loading. The store's own `loading` flag plays no part there.

## Model

| member | source | states |
|---|---|---|
| `Text.LeadingWhitespace` | client/context/globalContext.tsx:54-56 | the count of characters `trimStart` removes: all of them whitespace, and the next one, if any, is not |
| `Text.TrimStart` | client/context/globalContext.tsx:54-56 | the result is a suffix of the input, does not start with whitespace, and everything cut off is JavaScript whitespace |
| `Text.TrimStartIdempotent` | client/context/globalContext.tsx:54-56 | trimming an already trimmed title changes nothing |
| `Text.TrimStartKeepsTrimmed` | client/context/globalContext.tsx:58-60 | text that starts with a non-whitespace character is stored unchanged |
| `Text.TrimStartDropsPadding` | client/context/globalContext.tsx:54-56 | any whitespace typed before a text is exactly what the handler removes |
| `Text.ILikeIgnoresCase` | client/context/jobsContext.tsx:209-215 | lower-casing the listing text or the query does not change whether `ilike '%q%'` matches |
| `Text.SubstringILike` | client/context/jobsContext.tsx:209-215 | an exact occurrence of the query is also a case-insensitive match |
| `Types.SalaryTypeName` | client/types/types.ts:7 | a pay period is stored as one of "Yearly", "Monthly", "Weekly", "Hourly" |
| `Types.SalaryTypeNameInjective` | client/types/types.ts:7 | distinct pay periods have distinct stored names |
| `JobsContext.WithQueryField` | client/context/jobsContext.tsx:334-336 | the chosen query field holds the new value and the other two fields are unchanged |
| `JobsContext.ToggleFilter` | client/context/jobsContext.tsx:338-340 | the chosen category flag is negated and the other seven are unchanged |
| `JobsContext.ToggleFilterTwice` | client/context/jobsContext.tsx:338-340 | flipping the same filter twice is the identity |
| `JobsContext.Find` | client/context/jobsContext.tsx:243 | `None` exactly when no listing has that id; otherwise the first listing with that id |
| `JobsContext.ToggleLike` | client/context/jobsContext.tsx:246-249 | the caller's id is in the new likes iff it was not before; a present id is removed with every occurrence and the rest kept in order; an absent id is appended once at the end; other ids keep their counts; duplicate-freedom is kept |
| `JobsContext.ToggleLikeTwiceRestores` | client/context/jobsContext.tsx:246-249 | toggling twice from "not liked" gives back the exact original list |
| `JobsContext.ToggleLikeTwiceSameIds` | client/context/jobsContext.tsx:246-249 | toggling twice from "liked at most once" gives back the same ids with the same counts |
| `JobsContext.Applied` | client/context/jobsContext.tsx:280-285 | the caller's id is present afterwards; when absent before it is appended exactly once after the unchanged old list; other ids keep their counts; duplicate-freedom is kept |
| `JobsContext.AppliedIdempotent` | client/context/jobsContext.tsx:280-285 | applying a second time writes nothing new |
| `JobsContext.AppliedTwiceOneEntry` | client/context/jobsContext.tsx:280-285 | applying twice with a new id leaves exactly one entry for it |
| `JobsContext.WithColumn` | client/context/jobsContext.tsx:251-254 | the listing gets the new likes or applicants in the chosen column; the other column and every other field are kept |
| `JobsContext.SetColumn` | client/context/jobsContext.tsx:251-254 | every row with the id gets the written likes (or, for the applicants write at lines 287-290, applicants); every other row is unchanged |
| `JobsContext.SetColumnAt` | client/context/jobsContext.tsx:251-254 | after the write, every row with the id carries exactly the written list |
| `JobsContext.SetColumnKeepsIds` | client/context/jobsContext.tsx:287-290 | the write changes no id, so a listing with the id is found after it exactly when one was found before |
| `JobsContext.JobsOf` | client/context/jobsContext.tsx:169-180 | exactly the rows created by the user, each as often as in the table, in table order |
| `JobsContext.WithoutJob` | client/context/jobsContext.tsx:325-326 | no listing with the id remains; every other listing keeps its count and the order is kept |
| `JobsContext.DeleteOwned` | client/context/jobsContext.tsx:313-317 | only rows with that id AND that owner are removed; every other row keeps its count and order |
| `JobsContext.DeleteByNonOwnerKeepsRows` | client/context/jobsContext.tsx:313-317 | a caller who owns no row with the id removes no backend row |
| `JobsContext.SearchResults` | client/context/jobsContext.tsx:209-221 | exactly the rows matching each non-empty argument (case-insensitive substring on title and location, tag membership), each as often as in the table, in table order |
| `JobsContext.SearchWithoutArgumentsIsAll` | client/context/jobsContext.tsx:209-219 | with no non-empty argument the search returns the whole table in order |
| `JobsContext.SearchByTitleNarrows` | client/context/jobsContext.tsx:209-211 | every row a title search returns contains the title, ignoring case |
| `JobsContext.SearchIgnoresCase` | client/context/jobsContext.tsx:209-215 | lower-casing the title and location arguments gives the same results |
| `JobsContext.NewRow` | client/context/jobsContext.tsx:121-134 | the inserted row carries the draft's fields, the caller as owner, the backend's id, and no likes or applicants |
| `JobsContext.JobsProvider.constructor` | client/context/jobsContext.tsx:62-84 | empty lists, not loading, empty query, all eight filters off, salary range 30000 to 120000 |
| `JobsContext.JobsProvider.GetJobs` | client/context/jobsContext.tsx:86-112 | on success `jobs` becomes the whole table; on error it is kept; `loading` ends false; nothing else changes |
| `JobsContext.JobsProvider.GetUserJobs` | client/context/jobsContext.tsx:166-193 | on success `userJobs` becomes the user's rows; on error it is kept; `loading` ends false |
| `JobsContext.JobsProvider.SearchJobs` | client/context/jobsContext.tsx:195-234 | on success the search results replace `jobs` wholesale; on error `jobs` is kept; `loading` ends false |
| `JobsContext.JobsProvider.CreateJob` | client/context/jobsContext.tsx:114-164 | signed out or on an insert error nothing changes and an error notice is returned; otherwise the new row is prepended to the table and to `jobs`, the user's rows are re-fetched when a profile id is known, the whole list is re-fetched, and the route is the new listing's page |
| `JobsContext.JobsProvider.LikeJob` | client/context/jobsContext.tsx:236-268 | signed out, with no local listing, or on a write error nothing is written and no list changes; otherwise the toggled local likes are written and the list is re-fetched |
| `JobsContext.JobsProvider.ApplyToJob` | client/context/jobsContext.tsx:270-304 | signed out, with no local listing, already applied, or on a write error nothing is written; otherwise the local applicants plus the caller are written and the list is re-fetched |
| `JobsContext.JobsProvider.DeleteJob` | client/context/jobsContext.tsx:306-332 | signed out or on error nothing changes; otherwise the backend drops only the caller's own row while both local lists drop every listing with the id |
| `JobsContext.JobsProvider.HandleSearchChange` | client/context/jobsContext.tsx:334-336 | only the chosen query field changes |
| `JobsContext.JobsProvider.HandleFilterChange` | client/context/jobsContext.tsx:338-340 | only the chosen filter flag flips |
| `JobsContext.JobsProvider.SetSearchQuery` | client/context/jobsContext.tsx:66-70 | the query is replaced and nothing else changes |
| `JobsContext.JobsProvider.SetFilters` | client/context/jobsContext.tsx:72-81 | the filters are replaced and nothing else changes |
| `JobsContext.JobsProvider.SetMinSalary` | client/context/jobsContext.tsx:83 | the lower salary bound is replaced and nothing else changes |
| `JobsContext.JobsProvider.SetMaxSalary` | client/context/jobsContext.tsx:84 | the upper salary bound is replaced and nothing else changes |
| `StoreScenarios.LikeTwice` | client/context/jobsContext.tsx:242-263 | two successful likes from "not liked" restore the local likes in the backend only when the re-fetch in between succeeded; otherwise the rows stay liked |
| `StoreScenarios.ApplyTwice` | client/context/jobsContext.tsx:276-299 | after two successful applies every row with the id has the caller exactly once; the second call says "already applied" exactly when the re-fetch succeeded and the row exists |
| `GlobalContext.GlobalContextProvider.constructor` | client/context/globalContext.tsx:39-51 | the form starts blank: empty texts and lists, salary 0, "Yearly", not negotiable, empty location |
| `GlobalContext.GlobalContextProvider.HandleTitleChange` | client/context/globalContext.tsx:54-56 | the title becomes the input without leading whitespace; nothing else changes |
| `GlobalContext.GlobalContextProvider.HandleDescriptionChange` | client/context/globalContext.tsx:58-60 | the description becomes the input without leading whitespace; nothing else changes |
| `GlobalContext.GlobalContextProvider.HandleSalaryChange` | client/context/globalContext.tsx:62-64 | the salary becomes the given number; nothing else changes |
| `GlobalContext.GlobalContextProvider.SetActiveEmploymentTypes` | client/context/globalContext.tsx:42 | only the employment types change |
| `GlobalContext.GlobalContextProvider.SetJobDescription` | client/context/globalContext.tsx:40 | only the description changes, stored untrimmed |
| `GlobalContext.GlobalContextProvider.SetSalaryType` | client/context/globalContext.tsx:43 | only the salary type changes |
| `GlobalContext.GlobalContextProvider.SetNegotiable` | client/context/globalContext.tsx:44 | only the negotiable flag changes |
| `GlobalContext.GlobalContextProvider.SetTags` | client/context/globalContext.tsx:45 | only the tags change |
| `GlobalContext.GlobalContextProvider.SetSkills` | client/context/globalContext.tsx:46 | only the skills change |
| `GlobalContext.GlobalContextProvider.SetLocation` | client/context/globalContext.tsx:47-51 | only the location changes |
| `GlobalContext.GlobalContextProvider.ResetJobForm` | client/context/globalContext.tsx:66-80 | the form is back to exactly its starting values |
| `JobCardView.JobTypeBg` | client/Components/JobItem/JobCard.tsx:56-69 | "Full Time" green, "Part Time" purple, "Contract" red, "Internship" indigo, gray exactly for every other string |
| `JobCardView.JobTypeBgDistinguishesKnown` | client/Components/JobItem/JobCard.tsx:56-69 | the four known job types get four different colours |
| `JobCardView.SalarySuffix` | client/Components/JobItem/JobCard.tsx:140-146 | "pa", "pcm", "pw" for Yearly, Monthly, Weekly, and "ph" exactly for every other name |
| `JobCardView.SalarySuffixOfPayPeriods` | client/Components/JobItem/JobCard.tsx:140-146 | over the four pay periods the suffix is total, Hourly gives "ph", and distinct periods give distinct suffixes |
| `JobCardView.ApplicantLabel` | client/Components/JobItem/JobCard.tsx:98-99 | "Applicants" iff the count is above one, otherwise "Applicant" |
| `JobCardView.Truncate` | client/Components/JobItem/JobCard.tsx:127-130 | a text over 100 characters becomes its first 100 characters plus "...", length 103; a shorter one is unchanged |
| `JobCardView.CompanyDescriptionShownWhole` | client/Components/JobItem/JobCard.tsx:53-54 | the fixed placeholder text is shorter than the limit, so it is shown whole |
| `JobCardView.LikeFlag.constructor` | client/Components/JobItem/JobCard.tsx:22 | the flag starts false |
| `JobCardView.LikeFlag.HandleLike` | client/Components/JobItem/JobCard.tsx:38-45 | signed out neither the flag nor a request; signed in the flag flips and `likeJob(id)` is requested once |
| `JobCardView.LikeFlag.Sync` | client/Components/JobItem/JobCard.tsx:47-51 | with a profile id the flag equals "my id is among the likes"; without one it is kept |
| `MyJobView.Controls` | client/Components/JobItem/MyJob.tsx:94-111 | edit and delete are offered iff the profile owns the listing |
| `MyJobView.Press` | client/Components/JobItem/MyJob.tsx:96-109 | delete asks for `deleteJob(job.id)`; edit does nothing |
| `MyJobView.DeleteReachableOnlyByOwner` | client/Components/JobItem/MyJob.tsx:94-111 | a control that is offered implies ownership, and its delete request names this listing |
| `MyJobView.MyJob.constructor` | client/Components/JobItem/MyJob.tsx:22 | the card's flag starts false |
| `MyJobView.MyJob.HandleLike` | client/Components/JobItem/MyJob.tsx:26-30 | a no-op when signed out; otherwise the flag flips and `likeJob(id)` is requested once |
| `MyJobView.MyJob.Sync` | client/Components/JobItem/MyJob.tsx:32-36 | with a profile id the flag equals membership of that id in the listing's likes |
| `MyJobsPage.LikedJobs` | client/app/myjobs/page.tsx:28-30 | exactly the listings whose likes contain the profile id (or `''` without a profile), each as often as in `jobs`, in order |
| `MyJobsPage.Render` | client/app/myjobs/page.tsx:32-83 | nothing while auth loads; otherwise "No job posts found." iff posts tab and no own listings, "No liked jobs found." iff likes tab and no liked listings, the listed jobs are the tab's list, and a message shows iff that list is empty |
| `MyJobsPage.LikeWriteShowsInLikedTab` | client/app/myjobs/page.tsx:28-30 | after a like write, a row with that id is on the liked tab iff the local listing was not liked before |
| `MyJobsPage.MyJobsView.constructor` | client/app/myjobs/page.tsx:15 | the posts tab is active at first |
| `MyJobsPage.MyJobsView.SelectPosts` | client/app/myjobs/page.tsx:49 | the posts tab becomes active |
| `MyJobsPage.MyJobsView.SelectLikes` | client/app/myjobs/page.tsx:60 | the likes tab becomes active |

## Left out

- Backend wire behaviour: select and join strings, `.single()`, and the joined creator summary (`profiles` on a listing). The table is an in-model sequence of rows, and every call is an outcome parameter.
- `ilike` wildcards: `%` and `_` inside a query are taken literally. Case folding covers ASCII letters only.
- Row ordering by `created_at`: the table is kept newest first, and an insert prepends.
- Primary-key uniqueness of listing ids is not assumed. Updates touch every row with the id, and `find` takes the first.
- The backend's id and timestamps for a new row are parameters. Its default of empty likes and applicants is built into `JobsContext.NewRow`.
- Fetched data that is `null` without an error (`data || []`) is not distinguished from a successful fetch.
- Toasts and console logs become the returned `Notice` or are dropped. `router.push` becomes the returned route of `CreateJob`.
- React effects and their timing: fetching on mount, re-fetching when the profile id changes, and the "my jobs" redirect for signed-out visitors. The store's methods can be called directly instead.
- Rendering, and concurrent or interleaved asynchronous calls: each operation runs to completion on its own.
- `formatMoney` and `formatDates` are not part of this model.
- `JobCardView.Truncate`: counts Unicode code points, while JavaScript's `.length` and `substring(0, 100)` count UTF-16 code units. The two differ only for characters outside the Basic Multilingual Plane.
- `JobsContext.JobsProvider.HandleSearchChange`, `JobsContext.JobsProvider.HandleFilterChange`: take only the three query keys and the eight filter names. A call with any other key would add a new property, and that is not modelled.
- `GlobalContext.GlobalContextProvider.HandleSalaryChange`: takes the number the input already converted to. `Number(...)` parsing, fractions and `NaN` are not modelled, and salaries are integers throughout.
- Authentication (sign-in, sign-up, session): the signed-in identity and profile are inputs.
- The header, the sign-in modal, the post page, the listing detail page and the provider wrapper: they are UI glue.
