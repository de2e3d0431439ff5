# Bug tracker, brand store and ComfyUI helpers — a Dafny model

This project models four parts of an MCP tool server:

- **The bug-report tracker** (`bug_reports/bug_report.py`). A `bug_reports` table records each bug with:
  - its title, description and reproduction steps;
  - optional severity and category;
  - a status, an assignee and an assignment time;
  - progress notes, a screenshot and two timestamps.

  Handlers submit bugs, triage them, assign them, record progress, hand them to testers, resolve them and let an automated caller fix or triage them in bulk. Read-only views list open bugs, the caller's to-do list, the testing queue, a per-developer dashboard, an audit of resolved bugs and a feed for the automated caller.
- **The marketing tool's brand store** (`marketing/marketing_windows.py`). A JSON file maps brand ids to flat configuration objects. Handlers create and merge brands, delete them, and save LinkedIn and Facebook credentials. Pure rules check platform names, truncate LinkedIn posts and resize replacement images.
- **The ComfyUI helper scripts** (`comfyui_stuff/*.py`). These scripts:
  - reseed a workflow before queueing it;
  - strip the `data:` header from uploaded payloads;
  - gate audio uploads on size;
  - wait for both frames of a two-frame upload;
  - collect and download a job's outputs;
  - pick MIME types and display extensions;
  - assemble prompts from extra keyword arguments.
- **The `demo_group` permission check** (`comfyui_stuff/demo_group.py`). A user is allowed exactly when the name is on a fixed list.

State that the source changes in place is held by classes: `BugReports.BugStore` (the table), `Brands.BrandStore` (the brands file), `ComfyWorkflow.Workflow` (a workflow dictionary) and `ComfyFrames.FrameStorage` (`frame_storage`). Their methods are proved against specification functions, and the lemmas beside those functions state what the source promises. The read views are pure functions: filter, sort and limit. Each view is proved to return an answer that any correct SQL engine could return (`BugViews.ViewOf`).

Some values come from outside the server. Each becomes a parameter:

| Source value | Parameter |
|---|---|
| SQL `CURRENT_TIMESTAMP` | `now` |
| `datetime.now().strftime(...)` | `stamp` |
| a fresh `uuid4()` | the new id |
| the caller's name | a string argument |
| HTTP responses (the LinkedIn userinfo member id) | `Option` arguments |
| `random.randint(1, 2**32 - 1)` | a nondeterministic choice in that range |
| whether a decode-and-write succeeds | a `bool` |
| the decoded length of a payload | a function argument |

The code enforces no status-transition graph. Every handler that writes a status writes it whatever the previous status was. Assigning ignores the current assignee. The model keeps both behaviours, and the lemmas state them.

The notes branch of `ai_manage_bugs` selects and updates a `notes` column that the table does not have. The model follows the per-item error path:
- The item's earlier severity, category and status writes stay applied. The connection is shared and later items commit.
- The item adds one error entry.

`BugReports.NotesSelectFails` shows why the branch fails. The append format of that branch is not modelled.

## Model

| member | source | states |
|---|---|---|
| `Common.StripDataUrl` | bug_reports/bug_report.py:263-264 | A payload without the `data:` prefix is unchanged. A prefixed payload yields the text between the first and second comma, or an error when there is no comma (Python's IndexError); the result holds no comma |
| `Common.DataUrlRoundTrip` | bug_reports/bug_report.py:263-264 | For a header `data:…` without a comma and a payload without a comma, stripping `header + "," + payload` gives back exactly the payload |
| `Common.Split` | bug_reports/bug_report.py:1086 | `str.split` with a one-character separator gives at least one piece. It gives exactly one piece iff the separator is absent. No piece contains the separator |
| `Common.JoinSplit` | bug_reports/bug_report.py:1086 | Splitting loses nothing: joining the pieces with the separator gives the original string |
| `Common.SplitJoin` | comfyui_stuff/qwen_image_edit_local_windows.py:40 | Joining separator-free pieces and splitting again returns the pieces |
| `Common.StripIsSlice` | marketing/marketing_windows.py:361 | `strip()` returns the slice between the leading and the trailing whitespace (every character `str.isspace()` accepts, Unicode spaces included). What it removes is all whitespace, and what it keeps starts and ends with a non-space |
| `Common.StripIdempotent` | marketing/marketing_windows.py:361 | Stripping a stripped string changes nothing |
| `Common.BlankIffAllSpace` | marketing/marketing_windows.py:1400 | `not s.strip()` holds exactly when every character is whitespace in the sense of `str.isspace()` |
| `Common.StripLowerCommute` | marketing/marketing_windows.py:791 | `lower().strip()` and `strip().lower()` give the same string |
| `Common.Abbreviate` | bug_reports/bug_report.py:1157 | `s[:n] + "..."` for a string longer than `n`: `n + 3` characters, starting with the first `n` of `s`. Shorter strings are unchanged |
| `Common.ContainsAt` | marketing/marketing_windows.py:1722 | Python's `sub in s` holds exactly when some position of `s` starts an occurrence of `sub` |
| `Common.LastPiece` | marketing/marketing_windows.py:2479 | `s.split(sep)[-1]` contains no separator |
| `Common.LastPieceIsSuffix` | marketing/marketing_windows.py:2479 | The last piece is a suffix of `s`, preceded by the separator when shorter than `s`. It is all of `s` when `s` has no separator |
| `Common.LastPieceOf` | comfyui_stuff/frames_to_video.py:664 | The last piece of `a + sep + ext` is `ext` when `ext` holds no separator |
| `BugReports.RunSelect` | bug_reports/bug_report.py:27-49 | A SELECT succeeds iff every column it names is in the table's schema, and then returns the rows read |
| `BugReports.SeverityRank` | bug_reports/bug_report.py:964-970 | The `CASE severity` key: Critical 1, High 2, Medium 3, Low 4, and 5 exactly for any other value or NULL |
| `BugReports.NoneIfEmpty` | bug_reports/bug_report.py:884-885 | An empty or missing severity/category becomes NULL; a non-empty one is kept |
| `BugReports.AppendNote` | bug_reports/bug_report.py:1662-1671 | The new notes start with the old notes (NULL and "" read as ""), end with the appended text, and contain the actor's name |
| `BugReports.ScreenshotPathFor` | bug_reports/bug_report.py:258-282 | A screenshot path is recorded iff data and name are both non-empty, the data URL unwraps, and the write succeeds. The path is then `<dir>/<bug id>_<name>` |
| `BugReports.StrippedNonBlank` | bug_reports/bug_report.py:1086 | The parsed ids are non-empty and already stripped, and there are no more of them than pieces |
| `BugReports.StrippedNonBlankMembers` | bug_reports/bug_report.py:1086 | An id is parsed iff it is non-empty and is the stripped form of some comma-separated piece |
| `BugReports.AssignAllEffect` | bug_reports/bug_report.py:1091-1098 | After assigning, every existing listed bug has assignee = caller, assigned_at = now and status 'Assigned', whatever its previous state. Every other row is unchanged and no row is added |
| `BugReports.AssignAllWellFormed` | bug_reports/bug_report.py:1091-1098 | Assigning keeps every row under its own id with an assignment time exactly when it has an assignee |
| `BugReports.LastUpdateFor` | bug_reports/bug_report.py:1439-1448 | Finds the last progress update naming an id, or reports that none does |
| `BugReports.ProgressLastWins` | bug_reports/bug_report.py:1439-1448 | Saving progress overwrites: a named row ends with the status and notes of the last update naming it (missing notes become ""). Unnamed rows are unchanged and no row is added |
| `BugReports.ApplyProgressWellFormed` | bug_reports/bug_report.py:1439-1448 | Saving progress keeps the table well formed |
| `BugReports.ShortId` | bug_reports/bug_report.py:2093 | `bug_id[:8]`: a prefix of the id, eight characters long when the id has at least eight |
| `BugReports.NotesSelectFails` | bug_reports/bug_report.py:2114-2116 | Selecting the `notes` column fails, because the schema has no such column |
| `BugReports.ManageCounts` | bug_reports/bug_report.py:2080-2141 | `applied_count` counts the truthy severity/category/status values over items that have an id, whether or not the id exists. `error_count` counts items without an id plus items with truthy notes. Every item is processed and no row is added |
| `BugReports.ManageLeavesOthers` | bug_reports/bug_report.py:2080-2133 | A row that no item names is unchanged by the bulk update |
| `BugReports.ManageWellFormed` | bug_reports/bug_report.py:2080-2133 | The bulk update keeps the table well formed: it never touches an assignee |
| `BugReports.UnknownIdReportedApplied` | bug_reports/bug_report.py:2088-2093 | With an existing and an unknown id, both severity changes are reported as applied with no error, and only the existing row changes |
| `BugReports.BugStore.constructor` | bug_reports/bug_report.py:27-49 | The table starts empty and well formed |
| `BugReports.BugStore.Submit` | bug_reports/bug_report.py:238-293 | Exactly one new row under the fresh id. Its status is 'New'; severity, category, assignee, assigned_at and progress notes are unset; the form fields are stored and the screenshot path is `ScreenshotPathFor`. Other rows are unchanged |
| `BugReports.BugStore.GetBugDetails` | bug_reports/bug_report.py:1860-1904 | For a known id, the fifteen columns the handler selects and returns: every column except user id, username, session id and screenshot name. Nothing for an unknown id |
| `BugReports.DetailsSelectSucceeds` | bug_reports/bug_report.py:1868-1873 | The details SELECT names only schema columns, so it never fails. Two rows give the same details iff they differ at most in user id, username, session id and screenshot name |
| `BugReports.BugStore.SetSeverity` | bug_reports/bug_report.py:878-897 | Only the severity (empty becomes NULL) and updated_at of that row change. An unknown id changes nothing |
| `BugReports.BugStore.SetCategory` | bug_reports/bug_report.py:901-920 | The same, for the category |
| `BugReports.BugStore.SetStatus` | bug_reports/bug_report.py:924-941 | Only the status (written verbatim, from any status) and updated_at change. An unknown id changes nothing |
| `BugReports.BugStore.AssignToMe` | bug_reports/bug_report.py:1080-1100 | The table becomes the one `AssignAllEffect` describes for the parsed ids. The reported count is the number of parsed ids, counting unknown ones |
| `BugReports.BugStore.AssignIds` | bug_reports/bug_report.py:1091-1098 | The UPDATE loop applies one assignment per id, in list order, and counts every id |
| `BugReports.ReadUpdates` | bug_reports/bug_report.py:1435-1442 | The updates that run are those of the items before the first one lacking `bug_id` or `status` (KeyError), in order, and all items when none lacks a key |
| `BugReports.BugStore.SaveProgress` | bug_reports/bug_report.py:1431-1451 | The table becomes the one `ProgressLastWins` describes for the updates that ran, and it stays well formed. The handler succeeds, counting every item, iff every item has both keys; otherwise it fails after the earlier writes |
| `BugReports.BugStore.Resolve` | bug_reports/bug_report.py:1637-1650 | Status 'Resolved' from any status. Only status and updated_at change. An unknown id changes nothing |
| `BugReports.BugStore.SendBack` | bug_reports/bug_report.py:1656-1677 | Status goes back to 'Assigned' and the tester's note is appended (`AppendNote`, "Sent back by"). The assignee is kept. An unknown id changes nothing |
| `BugReports.BugStore.AiFixBug` | bug_reports/bug_report.py:1908-1977 | An unknown id returns "Bug not found" and changes nothing. A known id gets status 'Good-to-Test' and the fix note appended ("Fixed by"), and the call reports success |
| `BugReports.BugStore.AiManageBugs` | bug_reports/bug_report.py:2066-2148 | A missing or non-list argument is rejected with its message and changes nothing. Otherwise items are applied one by one as `ManageAll` describes, and the applied and error lists are returned |
| `BugReports.BugStore.Snapshot` | bug_reports/bug_report.py:331 | The rows, each exactly once, in some order: what every SELECT starts from |
| `BugReports.Enumerate` | bug_reports/bug_report.py:331 | A sequence of the table's rows, as many as the table has, with distinct ids |
| `BugReports.ListKeys` | bug_reports/bug_report.py:331 | The keys of a set, each once |
| `BugViews.AssignedAtKey` | bug_reports/bug_report.py:1139 | A NULL assigned_at sorts after every timestamp under DESC |
| `BugViews.SortedByRank` | bug_reports/bug_report.py:963-971 | Under a severity-first ordering, no listed row has a worse rank than a later one |
| `BugViews.SortSpec` | bug_reports/bug_report.py:963-971 | Sorting orders the rows by the view's key and is a permutation |
| `BugViews.SeverityOrderExample` | bug_reports/bug_report.py:963-971 | Bugs of severity Low, Critical, Medium sort to Critical, Medium, Low |
| `BugViews.Select` | bug_reports/bug_report.py:331 | A WHERE filter keeps exactly the rows that satisfy it |
| `BugViews.SelectSub` | bug_reports/bug_report.py:331 | A WHERE filter returns each row at most as often as the table holds it |
| `BugViews.Take` | bug_reports/bug_report.py:342 | `LIMIT n` keeps the first `n` rows; a negative limit keeps all |
| `BugViews.TakeOfSorted` | bug_reports/bug_report.py:342 | The first `n` rows of a sorted list are sorted and rank no later than any row left out |
| `BugViews.ViewSpec` | bug_reports/bug_report.py:331-342 | Filter, sort and limit give a correct SQL answer. It is sorted, holds only selected rows, holds no row more often than the table does, and is within the limit. It leaves out a selected row only when the limit is reached and the row ranks no earlier than every row returned |
| `BugViews.SelectKeepsOrder` | bug_reports/bug_report.py:331-342 | Filtering a sorted list keeps it sorted |
| `BugViews.NormalizeFilter` | bug_reports/bug_report.py:323-326 | A filter is dropped iff it is empty or equals "none" in any letter case; otherwise it is kept as given |
| `BugViews.OpenBugs` | bug_reports/bug_report.py:318-343 | Never a Resolved or Dismissed bug. Exact status and severity filters apply after normalisation. Newest reported first, at most `limit` rows |
| `BugViews.ManageQueue` | bug_reports/bug_report.py:433-440 | The open bugs, newest reported first, at most `limit` |
| `BugViews.AssignPicker` | bug_reports/bug_report.py:958-972 | Every New or Triaged bug with no assignee (NULL or ''), most severe first, then newest reported |
| `BugViews.CallerName` | bug_reports/bug_report.py:1121-1122 | The caller, else the client id, else "unknown" |
| `BugViews.MyBugs` | bug_reports/bug_report.py:1125-1141 | The caller's open bugs and no closed ones, most severe first, then most recently assigned. Every open bug assigned to the caller's name is listed |
| `BugViews.ProgressFormBugs` | bug_reports/bug_report.py:1298-1311 | The same bugs, ordered by severity rank only |
| `BugViews.TestingQueue` | bug_reports/bug_report.py:1466-1476 | Exactly the 'Good-to-Test' bugs, most severe first |
| `BugViews.ResolvedAudit` | bug_reports/bug_report.py:1759-1765 | Resolved bugs only, most recently updated first, at most `limit` |
| `BugViews.AiStatusList` | bug_reports/bug_report.py:1991-1995 | New and Triaged when no status is given; otherwise one entry per comma-separated piece, empty pieces included (`AiStatusListTrims` states that each entry is its piece trimmed) |
| `BugViews.AiStatusListOfPieces` | bug_reports/bug_report.py:1991-1995 | A status whose comma-separated pieces are already trimmed is read as exactly those pieces |
| `BugViews.AiStatusListOfJoin` | bug_reports/bug_report.py:1991-1995 | A comma-joined list of trimmed, comma-free statuses is read back as exactly those statuses, in order; so the feed selects exactly the statuses the caller listed |
| `BugViews.AiStatusListTrims` | bug_reports/bug_report.py:1991-1995 | A comma-joined list of comma-free statuses is read back as each status with its surrounding whitespace stripped, in order; so `"New, Triaged"` selects New and Triaged |
| `BugViews.AiStatusListExample` | bug_reports/bug_report.py:1991-1995 | The status `"New, Triaged"` selects exactly New and Triaged; the space after the comma is trimmed |
| `BugViews.AiFeedAsWrittenAlwaysFails` | bug_reports/bug_report.py:1997-2005 | The feed as written fails on every call: its SELECT names `notes` |
| `BugViews.AiFeed` | bug_reports/bug_report.py:1980-2031 | With `progress_notes` selected instead, the feed succeeds. It returns the bugs whose status is in the list, newest first, within the limit, and only New/Triaged bugs when no status is given |
| `BugViews.ViewBugReportAlwaysFails` | bug_reports/bug_report.py:373-378 | Viewing a report as written fails for every id, present or not: the SELECT names `user_context` and `error_timestamp` |
| `BugViews.OrDefault` | bug_reports/bug_report.py:358 | Python's `value or default` on an optional string |
| `BugViews.ListEntryOf` | bug_reports/bug_report.py:353-364 | A list entry shows severity or "Unassigned", category or "Uncategorized", and a screenshot mark iff a screenshot name is set |
| `BugViews.MyBugEntryOf` | bug_reports/bug_report.py:1150-1159 | A to-do entry's description is at most 83 characters, and severity defaults to "Unset" |
| `BugViews.AuditEntryOf` | bug_reports/bug_report.py:1777-1788 | An audit entry's fixer is the assignee or "Unknown", its resolution time is updated_at, and its notes are abbreviated to 100 characters plus "..." |
| `BugViews.DashboardRows` | bug_reports/bug_report.py:1693-1707 | Exactly the bugs with a non-empty assignee that are not Resolved or Dismissed, by severity |
| `BugViews.RowsOf` | bug_reports/bug_report.py:1717-1727 | One developer's rows, in list order |
| `BugViews.RowsOfKeepsOrder` | bug_reports/bug_report.py:1717-1727 | A developer's list keeps the order of the rows it comes from |
| `BugViews.GroupStep` | bug_reports/bug_report.py:1719-1727 | One turn of the grouping loop keeps the grouping exact |
| `BugViews.GroupByDeveloper` | bug_reports/bug_report.py:1717-1727 | Developers are listed once each, and the listed developers are exactly the groups. Each maps to exactly its rows, in list order, and never to an empty group. Every row is grouped |
| `BugViews.CountStatus` | bug_reports/bug_report.py:1735-1737 | A per-status count never exceeds the number of bugs |
| `BugViews.CountSeverity` | bug_reports/bug_report.py:1738-1739 | A per-severity count (on `severity or "Unset"`) never exceeds the number of bugs |
| `BugViews.CountsBounded` | bug_reports/bug_report.py:1730-1740 | The Assigned, In Progress and Good-to-Test counts together, and the Critical and High counts together, never exceed the total |
| `BugViews.Summarize` | bug_reports/bug_report.py:1730-1740 | A summary line carries the developer and the total, and its counts stay within the total |
| `BugViews.TeamDashboard` | bug_reports/bug_report.py:1687-1749 | One summary per group, for distinct developers, each the `Summarize` of its developer's group. Each group is exactly that developer's rows of `DashboardRows`, so the counts are those of the developer's open bugs. Every open bug with an assignee sits in its assignee's group. A group is sorted by severity, holds only that developer's open bugs, and is never for the empty name |
| `BugViews.DistinctCard` | bug_reports/bug_report.py:1730-1740 | A repeat-free list of developers has as many elements as its set |
| `Brands.OwnFields` | marketing/marketing_windows.py:360-372 | `create_brand_config` writes exactly its eleven own keys: each form field under its key, plus the two stamps |
| `Brands.Merged` | marketing/marketing_windows.py:357-379 | The merged configuration stores the trimmed form fields and keeps an existing `created_at`, with a fresh `updated_at`. Every other existing key, such as a token, is carried over unchanged |
| `Brands.MergeTwice` | marketing/marketing_windows.py:357-379 | Saving the same form again changes only `updated_at`: the first creation stamp survives |
| `Brands.TrimmedTwice` | marketing/marketing_windows.py:361-369 | Trimming a trimmed form changes nothing |
| `Brands.ListEntry` | marketing/marketing_windows.py:428-434 | An entry exists iff the four keys it reads are present. It carries the brand id, name and voice. A description over 80 characters becomes its first 80 plus "...", and an audience over 50 its first 50 plus "..."; shorter ones are shown whole |
| `Brands.PostTarget` | marketing/marketing_windows.py:785-794 | The brand is checked first, then the lower-cased, trimmed platform name, which must be twitter, linkedin, instagram or facebook |
| `Brands.PlatformList` | marketing/marketing_windows.py:1136 | One normalised entry per comma-separated piece |
| `Brands.PlatformListNormalized` | marketing/marketing_windows.py:1136 | Each entry equals the single-platform normalisation of its piece |
| `Brands.Invalid` | marketing/marketing_windows.py:1137 | Exactly the named entries that are not platforms, in order |
| `Brands.Chosen` | marketing/marketing_windows.py:1160-1163 | Exactly the platforms the request names, each taken from the platform table |
| `Brands.Filter` | marketing/marketing_windows.py:1162 | The table's entries that the list names |
| `Brands.RepurposeTargets` | marketing/marketing_windows.py:1127-1140 | An unknown brand is refused first. Then content under 50 characters after stripping is refused. Then every unknown platform is reported together. Otherwise the request goes ahead for exactly the named platforms |
| `Brands.TruncatePost` | marketing/marketing_windows.py:1541-1543 | Text over 3000 characters becomes its first 2997 plus "...", exactly 3000. Shorter text is unchanged |
| `Brands.LinkedInText` | marketing/marketing_windows.py:1527-1543 | A post needs a known brand with a LinkedIn token and non-blank text. The text sent is the truncation, at most 3000 characters |
| `Brands.PostAuthor` | marketing/marketing_windows.py:1555-1592 | The author is the organisation when an org id is configured. Otherwise it is the member id from userinfo, and an error when there is none |
| `Brands.RoundDown16` | marketing/marketing_windows.py:2465-2466 | `(d // 16) * 16` is the largest multiple of 16 not above `d` |
| `Brands.NewSize` | marketing/marketing_windows.py:2464-2472 | Both sides are rounded down to multiples of 16, unless either would fall below 400, in which case both stay as they were |
| `Brands.ImageExtension` | marketing/marketing_windows.py:2479-2481 | The lower-cased text after the last dot if it is jpg, jpeg, png or webp, otherwise png |
| `Brands.PlanReplacement` | marketing/marketing_windows.py:2446-2490 | Over 3 MiB is refused. Otherwise the image is resized by `NewSize` (and marked resized iff the size changed), given the `ImageExtension` and saved as JPEG iff the extension is jpg/jpeg |
| `Brands.NewSizeExamples` | marketing/marketing_windows.py:2464-2472 | 1000x600 becomes 992x592; 410x1000 becomes 400x992; 390x1000 stays |
| `Brands.BrandStore.constructor` | marketing/marketing_windows.py:89-95 | The store holds the loaded brands |
| `Brands.BrandStore.CreateOrUpdate` | marketing/marketing_windows.py:354-380 | The brand becomes `Merged` over its old configuration (or over nothing); every other brand is untouched |
| `Brands.BrandStore.Delete` | marketing/marketing_windows.py:713-724 | Only the named brand is removed. An unknown id, or a configuration without `brand_name` (KeyError before the delete), changes nothing |
| `Brands.BrandStore.SaveLinkedInToken` | marketing/marketing_windows.py:1390-1473 | A blank brand id, then a blank token, then an unknown brand are refused before any change. Otherwise only that brand changes, to `LinkedInConfig` |
| `Brands.LinkedInConfig` | marketing/marketing_windows.py:1420-1473 | The trimmed token and the profile fields are stored ("" in organisation mode). `linkedin_org_id` is present iff the trimmed org id is non-blank, and then equals it. Every other key is kept |
| `Brands.SavedOrgDecidesAuthor` | marketing/marketing_windows.py:1468-1473 | After a save with an org id, posts are authored by that organisation; after a save without, by the member |
| `Brands.BrandStore.SetCompanyPage` | marketing/marketing_windows.py:1718-1733 | A blank URL, then a URL without "linkedin.com/company/", then an unknown brand are refused with their messages. Otherwise only that brand's `linkedin_company_page` is set |
| `Brands.BrandStore.SaveFacebookToken` | marketing/marketing_windows.py:2669-2695 | A blank brand id, token or page id, or an unknown brand, is refused with no change. Otherwise the trimmed token and page id are stored on that brand only |
| `ComfyWorkflow.ReseedNode` | comfyui_stuff/frames_to_video.py:17-22 | One node after the loop body: class type and input names unchanged. A seed input named by the policy, on a node the policy targets, holds a value in [1, 2^32-1]; everything else is unchanged and no key is added |
| `ComfyWorkflow.ReseededTwice` | comfyui_stuff/frames_to_video.py:15-23 | Reseeding an already reseeded workflow is still a reseeding of the original |
| `ComfyWorkflow.NoSeedNoChange` | comfyui_stuff/upscale_image_default.py:18-21 | A node without the policy's seed inputs comes out exactly as it went in |
| `ComfyWorkflow.PolicyDifferences` | comfyui_stuff/create_audio_with_voice_local_windows.py:16-21 | The audio variant leaves `noise_seed` alone, the upscale variant reseeds it on any node, and the sampler-only variant leaves a non-sampler node untouched |
| `ComfyWorkflow.Workflow.constructor` | comfyui_stuff/frames_to_video.py:15 | The workflow holds the given nodes |
| `ComfyWorkflow.Workflow.UpdateSeeds` | comfyui_stuff/frames_to_video.py:15-23 | Updates in place: the same node ids, each node `Reseeded` under the script's policy. Samplers only: frames_to_video and create_video_with_image_local.py:15-23. Seed only: create_audio_with_voice_local_windows.py:16-21. All nodes: upscale_image_default.py:15-22 |
| `ComfyFrames.FramesToProcess` | comfyui_stuff/frames_to_video.py:296-301 | Processing goes on iff both frames are stored, with the first and the last frame from their own slots |
| `ComfyFrames.AfterUpload` | comfyui_stuff/frames_to_video.py:730-752 | A callback stores its frame in its own slot and keeps the other. It starts processing iff the other frame was already stored |
| `ComfyFrames.EitherOrderStartsOnce` | comfyui_stuff/frames_to_video.py:730-752 | In either arrival order, the first upload waits and the second starts processing with the frames in their own slots |
| `ComfyFrames.SameSlotWaits` | comfyui_stuff/frames_to_video.py:732-741 | Uploading the same slot twice never starts processing; the later frame replaces the earlier |
| `ComfyFrames.StartedMeansReady` | comfyui_stuff/frames_to_video.py:296-301 | A callback that starts processing always finds both frames, so the waiting branch is never taken then |
| `ComfyFrames.ReuploadRestarts` | comfyui_stuff/frames_to_video.py:740-752 | Once both frames are stored, every further upload starts processing again, with the new frame |
| `ComfyFrames.FrameStorage.constructor` | comfyui_stuff/frames_to_video.py:293 | `frame_storage` starts empty |
| `ComfyFrames.FrameStorage.Process` | comfyui_stuff/frames_to_video.py:296-301 | Reads the storage: a job iff both frames are stored |
| `ComfyFrames.FrameStorage.UploadFrame` | comfyui_stuff/frames_to_video.py:732-752 | Storage and job are what `AfterUpload` gives; a started job always has both frames |
| `ComfyOutputs.ViewParams` | comfyui_stuff/frames_to_video.py:632-639 | The `/view` parameters carry the filename and the type, which defaults to "output", and carry `subfolder` iff it is present and non-empty |
| `ComfyOutputs.DownloadsPointwise` | comfyui_stuff/frames_to_video.py:627-656 | Each output item yields exactly one download, at its own position, with its node id, media key and parameters |
| `ComfyOutputs.ItemsMembership` | comfyui_stuff/frames_to_video.py:627-632 | The loops reach exactly the entries listed under one of the keys in an admitted node |
| `ComfyOutputs.MissingFilename` | comfyui_stuff/frames_to_video.py:632 | One entry without a filename spoils the whole collection |
| `ComfyOutputs.CollectDownloads` | comfyui_stuff/frames_to_video.py:627-656 | The nested loops succeed iff every reached entry has a filename (otherwise KeyError), and then return one download per entry, in order |
| `ComfyOutputs.CollectNode` | comfyui_stuff/frames_to_video.py:630-656 | The loop over one node's keys, with the same contract |
| `ComfyOutputs.CollectKey` | comfyui_stuff/frames_to_video.py:631-656 | The loop over one key's list, with the same contract |
| `ComfyOutputs.CollectVideos` | comfyui_stuff/create_video_with_image_local.py:499-536 | The videos, gifs and images of every node, one download each |
| `ComfyOutputs.CollectAudio` | comfyui_stuff/create_audio_with_voice_local_windows.py:374-403 | Only the `audio` lists, one download each |
| `ComfyOutputs.CollectUpscaled` | comfyui_stuff/upscale_image_default.py:402-425 | Only the images of node "48", one download each |
| `ComfyOutputs.CollectEditedImages` | comfyui_stuff/qwen_image_edit_local_windows.py:433-462 | Empty outputs stop the handler; otherwise the `images` lists of every node, one download each |
| `ComfyOutputs.UpscaleOnlyNode48` | comfyui_stuff/upscale_image_default.py:402-403 | The upscaler downloads nothing but the images of node "48" |
| `ComfyOutputs.UpscaleTakesAllOfNode48` | comfyui_stuff/upscale_image_default.py:402-404 | Every image of node "48" is downloaded |
| `ComfyOutputs.DotSuffix` | comfyui_stuff/frames_to_video.py:664 | The lower-cased text after the last dot holds no dot |
| `ComfyOutputs.VideoMime` | comfyui_stuff/frames_to_video.py:664-665 | `video/<ext>` for mp4, webm or ogg; otherwise `video/mp4` |
| `ComfyOutputs.VideoMimeKnown` | comfyui_stuff/create_video_with_image_local.py:546-547 | A name ending in `.mp4`, `.webm` or `.ogg` gets that MIME type |
| `ComfyOutputs.VideoMimeDefault` | comfyui_stuff/create_video_with_image_local.py:546-547 | Any other extension, or a bare name that is not an extension, gets `video/mp4` |
| `ComfyOutputs.AudioMime` | comfyui_stuff/create_audio_with_voice_local_windows.py:412-413 | `audio/<ext>` for mp3, wav, ogg or webm; otherwise `audio/mpeg` |
| `ComfyOutputs.AudioMimeKnown` | comfyui_stuff/create_audio_with_voice_local_windows.py:412-413 | A name ending in a known audio extension gets that MIME type |
| `ComfyOutputs.AudioMimeDefault` | comfyui_stuff/create_audio_with_voice_local_windows.py:412-413 | Any other extension gets `audio/mpeg` |
| `ComfyOutputs.BaseName` | comfyui_stuff/qwen_image_edit_local_windows.py:475 | The last path component is a suffix of the path with no `/` or `\` |
| `ComfyOutputs.BaseExt` | comfyui_stuff/qwen_image_edit_local_windows.py:475 | A component's extension holds no dot |
| `ComfyOutputs.SplitExt` | comfyui_stuff/qwen_image_edit_local_windows.py:475 | `splitext(...)[1]` without its dot holds no dot |
| `ComfyOutputs.DisplayExtension` | comfyui_stuff/qwen_image_edit_local_windows.py:475 | The lower-cased extension, or "png" when there is none; never empty, never a dot |
| `ComfyOutputs.BaseNameNoSep` | comfyui_stuff/qwen_image_edit_local_windows.py:475 | A name without separators is its own last component |
| `ComfyOutputs.BaseExtOf` | comfyui_stuff/qwen_image_edit_local_windows.py:475 | The extension of `stem.ext` is `ext` when the stem is not all dots |
| `ComfyOutputs.SplitExtOf` | comfyui_stuff/qwen_image_edit_local_windows.py:475 | `splitext` of a file name `stem.ext` gives `ext` |
| `ComfyOutputs.DisplayExtensionOf` | comfyui_stuff/qwen_image_edit_local_windows.py:475 | A file `stem.ext` shows its lower-cased extension, or png when the extension is empty |
| `ComfyOutputs.DisplayExtensionDefault` | comfyui_stuff/qwen_image_edit_local_windows.py:475 | A name with no dot, or only a leading one, shows png |
| `ComfyOutputs.ExtraWords` | comfyui_stuff/qwen_image_edit_local_windows.py:38 | No more extra words than keyword arguments |
| `ComfyOutputs.ExtraWordsMembers` | comfyui_stuff/qwen_image_edit_local_windows.py:38 | A word is extra iff it is the value of some keyword argument other than the excluded one |
| `ComfyOutputs.JoinExtraWords` | comfyui_stuff/qwen_image_edit_local_windows.py:38-40 | The prompt is unchanged without extra words, and always starts the result |
| `ComfyOutputs.JoinedPromptSplits` | comfyui_stuff/create_audio_with_voice_local_windows.py:33-35 | Splitting the joined prompt on spaces recovers the prompt and the extra words, when none holds a space |
| `ComfyOutputs.PositivePrompt` | comfyui_stuff/create_video_with_image_local.py:304 | The given prompt, or the built-in sentence when it is empty; never empty |
| `ComfyOutputs.PositivePromptIdempotent` | comfyui_stuff/create_video_with_image_local.py:304 | Applying the fallback twice is applying it once |
| `ComfyOutputs.StripUnguarded` | comfyui_stuff/create_video_with_image_local.py:214-216 | Without a guard a missing payload raises; a present one is `StripDataUrl` of it |
| `ComfyOutputs.StripGuarded` | comfyui_stuff/upscale_image_default.py:215-217 | With the guard an empty or missing payload is passed on untouched, and so is one without `data:` |
| `ComfyOutputs.GuardOnlyCatchesNone` | comfyui_stuff/frames_to_video.py:328-329 | The guard changes the outcome only for a missing payload |
| `ComfyOutputs.AudioUploadProceeds` | comfyui_stuff/create_audio_with_voice_local_windows.py:469-487 | An upload is stopped iff it strips and decodes to more than 1024*1024 bytes. A strip or decode failure is only logged |
| `ComfyOutputs.AudioGateBoundary` | comfyui_stuff/create_audio_with_voice_local_windows.py:478-482 | Exactly 1 MiB passes and one byte more is refused. A data URL without a comma passes |
| `DemoGroup.IsAllowed` | comfyui_stuff/demo_group.py:19-24 | True exactly for "user123", "user456", "alice", "bob" and "admin" |
| `DemoGroup.ExactComparison` | comfyui_stuff/demo_group.py:21-24 | The comparison is exact: "Alice", "ADMIN", " bob" and "" are refused, "alice" and "admin" allowed |
| `DemoGroup.AllowedAreLowerWords` | comfyui_stuff/demo_group.py:19 | Every allowed name is at least three lower-case letters or digits |

## Left out

- SQLite itself is left out: the connection, the DDL, the ALTER TABLE migrations and transactions. The table is a map. SQL NULL is `None`, and an empty string is a distinct value, as in SQLite.
- Every HTML and JavaScript form is left out. So are the client-side checks that only the browser enforces: non-empty title and description, and a send-back reason.
- The view handlers are modelled only as their row selection and the entry each row becomes. The HTML cards they render and the `client_log`/`client_data` display calls are left out.
- The first `get_bugs_for_ai` (bug_reports/bug_report.py:1795) is not modelled. The second definition of the same name replaces it when the module loads.
- The append format of the notes branch of `ai_manage_bugs` is not modelled. That branch always fails (`BugReports.NotesSelectFails`), and the model follows that error path.
- Values read from JSON arrive as strings or missing keys. A non-string value (a number, a nested object) and `str(v)` of a non-string keyword argument are not modelled.
- `Common.Lower` lowers the ASCII letters only; Python's Unicode-wide `lower()` is not modelled. `Common.Strip` removes exactly the characters `str.isspace()` accepts.
- `BugViews.TeamDashboard`: does not state the order of the summary lines or of the bugs of equal severity within a group. The source sorts by assignee first, so developers come out alphabetically; the model sorts by severity and groups afterwards.
- `BugViews.MyBugEntryOf`: states only the description bound and the severity default. The other fields are copied as the source copies them.
- `Brands.ListEntry`: a configuration missing one of its four keys yields no entry. In the source the KeyError ends `list_brands` as a whole.
- `Brands.BrandStore.SaveLinkedInToken`: reports success for a brand without `brand_name`. In the source the write happens and the result table's KeyError then returns an error.
- `Brands.BrandStore.CreateOrUpdate`: the key order of the saved JSON object is not modelled, because a configuration is a map.
- The LinkedIn and Facebook HTTP calls, the LLM and image-generation calls, and Chrome automation are left out. Their results appear as parameters where the modelled rules use them.
- The JSON file load and save are left out. The brands file is the map.
- PIL's decoding, resampling and encoding are left out. `Brands.PlanReplacement` takes the decoded byte count and the image size as inputs.
- The ComfyUI HTTP upload, queueing and polling loops are left out, along with the downloaded bytes, their size and base64 text, temporary files, and the workflow JSON graphs.
- `ComfyOutputs.CollectDownloads`: records the request of each download, not its response. A failed download request, which ends the source's loop, is not modelled.
- `ComfyWorkflow.Workflow.UpdateSeeds`: `random.randint` is a nondeterministic choice in [1, 2^32-1]. The nodes are visited in some order, not dictionary order; the result does not depend on the order.
- `ComfyFrames.FrameStorage.UploadFrame`: the two upload callbacks are asynchronous in the source and are taken to run one after another.
- `DemoGroup.IsAllowed`: the log line written before the check is not modelled.

## Findings

| source | as written | input that shows it | evidently intended | confidence | as-written member | corrected member |
|---|---|---|---|---|---|---|
| bug_reports/bug_report.py:1997-2005 | The second `get_bugs_for_ai` selects a `notes` column, which the `bug_reports` schema does not declare | any call, e.g. `get_bugs_for_ai()` on any table | select `progress_notes`, the schema's notes column | not executed | `BugViews.AiFeedAsWrittenAlwaysFails` | `BugViews.AiFeed` |
| bug_reports/bug_report.py:373-378 | `view_bug_report` selects `user_context` and `error_timestamp`, which the schema does not declare | any call, e.g. `view_bug_report("x")`, whether or not the id exists | read the id's row through schema columns only, as `get_bug_details` does with its fifteen columns | not executed | `BugViews.ViewBugReportAlwaysFails` | `BugReports.BugStore.GetBugDetails` |
