/**
 * The `bug_reports` table and the handlers that write to it.
 *
 * The table is a map from bug id to row, held by a `BugStore` object whose
 * methods are the handlers: each one rewrites rows in place, as the SQL
 * UPDATE statements do. The SQL engine's `CURRENT_TIMESTAMP` is the `now`
 * parameter, `datetime.now().strftime(...)` is the `stamp` parameter, and a
 * fresh `uuid4()` is the `bugId` parameter of `Submit`.
 *
 * The code enforces no status-transition graph: every handler that writes a
 * status writes it whatever the row's previous status was, and assigning
 * ignores the current assignee.
 */
module BugReports {
  import opened Common

  type Timestamp = nat

  const StatusNew: string := "New"
  const StatusTriaged: string := "Triaged"
  const StatusAssigned: string := "Assigned"
  const StatusInProgress: string := "In Progress"
  const StatusGoodToTest: string := "Good-to-Test"
  const StatusResolved: string := "Resolved"
  const StatusDismissed: string := "Dismissed"

  /** One row of the `bug_reports` table; `None` is SQL NULL. */
  datatype BugReport = BugReport(
    bugId: string,
    userId: string,
    username: string,
    sessionId: string,
    title: string,
    description: string,
    reproductionSteps: Option<string>,
    severity: Option<string>,
    category: Option<string>,
    systemInfo: string,
    logContext: Option<string>,
    screenshotPath: Option<string>,
    screenshotName: Option<string>,
    status: string,
    assignedTo: Option<string>,
    assignedAt: Option<Timestamp>,
    progressNotes: Option<string>,
    reportedAt: Timestamp,
    updatedAt: Timestamp)

  /** The column names the table's CREATE statement declares. */
  const SchemaColumns: set<string> := {
    "bug_id", "user_id", "username", "session_id", "title", "description",
    "reproduction_steps", "severity", "category", "system_info", "log_context",
    "screenshot_path", "screenshot_name", "status", "assigned_to", "assigned_at",
    "progress_notes", "reported_at", "updated_at"}

  /** A SELECT naming a column outside the schema fails before reading any row. */
  function RunSelect<T>(columns: seq<string>, rowsRead: T): (r: Result<T>)
    ensures r.Ok? <==> forall i :: 0 <= i < |columns| ==> columns[i] in SchemaColumns
    ensures r.Ok? ==> r.value == rowsRead
  {
    if forall i :: 0 <= i < |columns| ==> columns[i] in SchemaColumns then Ok(rowsRead)
    else Err("no such column")
  }

  /** The statuses the "active" views leave out. */
  predicate IsTerminal(status: string) {
    status == StatusResolved || status == StatusDismissed
  }

  /** The `CASE severity WHEN 'Critical' THEN 1 ... ELSE 5 END` ordering key. */
  function SeverityRank(severity: Option<string>): (rank: int)
    ensures 1 <= rank <= 5
    ensures rank == 5 <==> severity !in {Some("Critical"), Some("High"), Some("Medium"), Some("Low")}
  {
    match severity
    case Some("Critical") => 1
    case Some("High") => 2
    case Some("Medium") => 3
    case Some("Low") => 4
    case _ => 5
  }

  /** A row has an assignment time exactly when it has an assignee. */
  predicate AssignmentConsistent(b: BugReport) {
    b.assignedTo.Some? <==> b.assignedAt.Some?
  }

  /** Every row is filed under its own id and is assignment-consistent. */
  ghost predicate WellFormed(rows: map<string, BugReport>) {
    forall k :: k in rows ==> rows[k].bugId == k && AssignmentConsistent(rows[k])
  }

  /** `if not severity: severity = None`: an empty value clears the column. */
  function NoneIfEmpty(v: Option<string>): (r: Option<string>)
    ensures r.Some? <==> Truthy(v)
    ensures r.Some? ==> r == v
  {
    if Truthy(v) then v else None
  }

  /** The notes text a handler appends to: NULL and "" both read as "". */
  function NotesText(notes: Option<string>): string {
    if Truthy(notes) then notes.value else ""
  }

  /** The block `"\n\n[<stamp>] <verb> <actor>:\n<text>"` appended to the notes. */
  function NoteBlock(stamp: string, verb: string, actor: string, text: string): string {
    "\n\n[" + stamp + "] " + verb + " " + actor + ":\n" + text
  }

  /** Notes after appending a block: the old notes come first and the
      block's text comes last. */
  function AppendNote(notes: Option<string>, stamp: string, verb: string, actor: string, text: string): (r: string)
    ensures |NotesText(notes)| <= |r| && r[..|NotesText(notes)|] == NotesText(notes)
    ensures |text| <= |r| && r[|r| - |text|..] == text
    ensures Contains(r, actor)
  {
    var block := NoteBlock(stamp, verb, actor, text);
    var r := NotesText(notes) + block;
    var at := |NotesText(notes)| + 3 + |stamp| + 2 + |verb| + 1;
    assert r[at..at + |actor|] == actor;
    ContainsAt(r, actor);
    assert OccursAt(r, actor, at);
    r
  }

  // ---------------------------------------------------------------------------
  // Submitting a report

  /** The screenshot file name: `"<bug id>_<original name>"` under `dir`. */
  function ScreenshotFile(dir: string, bugId: string, name: string): string {
    dir + "/" + bugId + "_" + name
  }

  /** The screenshot path `submit_bug_report` records: only when both the
      data and the name were given, the data URL could be unwrapped, and the
      decode-and-write step (`saved`) succeeded. */
  function ScreenshotPathFor(dir: string, bugId: string, data: Option<string>, name: Option<string>, saved: bool): (r: Option<string>)
    ensures r.Some? <==> Truthy(data) && Truthy(name) && StripDataUrl(data.value).Ok? && saved
    ensures r.Some? ==> r.value == ScreenshotFile(dir, bugId, name.value)
  {
    if Truthy(data) && Truthy(name) && StripDataUrl(data.value).Ok? && saved then
      Some(ScreenshotFile(dir, bugId, name.value))
    else None
  }

  // ---------------------------------------------------------------------------
  // Assigning to the caller

  /** `[b.strip() for b in bug_ids.split(',') if b.strip()]` over a list of pieces. */
  function StrippedNonBlank(parts: seq<string>): (ids: seq<string>)
    ensures |ids| <= |parts|
    ensures forall k :: 0 <= k < |ids| ==> ids[k] != "" && Strip(ids[k]) == ids[k]
    decreases |parts|
  {
    if parts == [] then []
    else
      var rest := StrippedNonBlank(parts[1..]);
      if Strip(parts[0]) == "" then rest
      else
        StripIdempotent(parts[0]);
        [Strip(parts[0])] + rest
  }

  /** The parsed ids are exactly the non-blank stripped pieces. */
  lemma {:induction false} StrippedNonBlankMembers(parts: seq<string>)
    ensures forall x :: x in StrippedNonBlank(parts) <==>
      x != "" && exists i :: 0 <= i < |parts| && Strip(parts[i]) == x
    decreases |parts|
  {
    if parts != [] {
      StrippedNonBlankMembers(parts[1..]);
      forall x
        ensures x in StrippedNonBlank(parts) <==>
          x != "" && exists i :: 0 <= i < |parts| && Strip(parts[i]) == x
      {
        if x != "" && exists i :: 0 <= i < |parts| && Strip(parts[i]) == x {
          var i :| 0 <= i < |parts| && Strip(parts[i]) == x;
          if i > 0 {
            assert Strip(parts[1..][i - 1]) == x;
          }
        }
        if x in StrippedNonBlank(parts[1..]) {
          var i :| 0 <= i < |parts[1..]| && Strip(parts[1..][i]) == x;
          assert Strip(parts[i + 1]) == x;
        }
      }
    }
  }

  /** The bug ids of a comma-separated list, trimmed, blanks dropped. */
  function ParseIdList(bugIds: string): seq<string> {
    StrippedNonBlank(Split(bugIds, ','))
  }

  /** A row after `SET assigned_to = ?, assigned_at = CURRENT_TIMESTAMP,
      status = 'Assigned', updated_at = CURRENT_TIMESTAMP`. */
  function AssignedRow(b: BugReport, user: string, now: Timestamp): BugReport {
    b.(assignedTo := Some(user), assignedAt := Some(now), status := StatusAssigned, updatedAt := now)
  }

  function AssignOne(rows: map<string, BugReport>, id: string, user: string, now: Timestamp): map<string, BugReport> {
    if id in rows then rows[id := AssignedRow(rows[id], user, now)] else rows
  }

  /** The table after one UPDATE per listed id, in list order. */
  function AssignAll(rows: map<string, BugReport>, ids: seq<string>, user: string, now: Timestamp): map<string, BugReport>
    decreases |ids|
  {
    if ids == [] then rows
    else AssignOne(AssignAll(rows, ids[..|ids| - 1], user, now), ids[|ids| - 1], user, now)
  }

  /** Every existing listed bug is assigned to the caller whatever its previous
      assignee and status; every other row is unchanged; no row is added. */
  lemma {:induction false} AssignAllEffect(rows: map<string, BugReport>, ids: seq<string>, user: string, now: Timestamp)
    ensures AssignAll(rows, ids, user, now).Keys == rows.Keys
    ensures forall k :: k in rows ==>
      AssignAll(rows, ids, user, now)[k] == if k in ids then AssignedRow(rows[k], user, now) else rows[k]
    decreases |ids|
  {
    if ids != [] {
      var init := ids[..|ids| - 1];
      AssignAllEffect(rows, init, user, now);
      forall k | k in rows
        ensures AssignAll(rows, ids, user, now)[k] == if k in ids then AssignedRow(rows[k], user, now) else rows[k]
      {
        assert k in ids <==> k in init || k == ids[|ids| - 1] by {
          assert ids == init + [ids[|ids| - 1]];
        }
      }
    }
  }

  /** Assigning keeps every row assignment-consistent. */
  lemma AssignAllWellFormed(rows: map<string, BugReport>, ids: seq<string>, user: string, now: Timestamp)
    requires WellFormed(rows)
    ensures WellFormed(AssignAll(rows, ids, user, now))
  {
    AssignAllEffect(rows, ids, user, now);
  }

  // ---------------------------------------------------------------------------
  // Saving progress

  /** One element of the JSON list `_save_bug_progress` receives; `notes`
      is `None` when the key is missing. */
  datatype ProgressUpdate = ProgressUpdate(bugId: string, status: string, notes: Option<string>)

  /** `update.get('notes', '')` */
  function ProgressText(u: ProgressUpdate): string {
    if u.notes.Some? then u.notes.value else ""
  }

  /** A row after `SET status = ?, progress_notes = ?`: both overwritten. */
  function ProgressRow(b: BugReport, u: ProgressUpdate, now: Timestamp): BugReport {
    b.(status := u.status, progressNotes := Some(ProgressText(u)), updatedAt := now)
  }

  function ApplyProgressOne(rows: map<string, BugReport>, u: ProgressUpdate, now: Timestamp): map<string, BugReport> {
    if u.bugId in rows then rows[u.bugId := ProgressRow(rows[u.bugId], u, now)] else rows
  }

  function ApplyProgress(rows: map<string, BugReport>, us: seq<ProgressUpdate>, now: Timestamp): map<string, BugReport>
    decreases |us|
  {
    if us == [] then rows
    else ApplyProgressOne(ApplyProgress(rows, us[..|us| - 1], now), us[|us| - 1], now)
  }

  /** One element of the JSON list as received: `None` for a missing key. */
  datatype ProgressItem = ProgressItem(bugId: Option<string>, status: Option<string>, notes: Option<string>)

  /** `update['bug_id']` and `update['status']` both succeed. */
  predicate HasKeys(it: ProgressItem) {
    it.bugId.Some? && it.status.Some?
  }

  function AsUpdate(it: ProgressItem): ProgressUpdate
    requires HasKeys(it)
  {
    ProgressUpdate(it.bugId.value, it.status.value, it.notes)
  }

  /** The updates that run before the first item without `bug_id` or
      `status` raises KeyError: the items up to that one, in order. */
  function ReadUpdates(items: seq<ProgressItem>): (us: seq<ProgressUpdate>)
    ensures |us| <= |items|
    ensures forall j :: 0 <= j < |us| ==> HasKeys(items[j]) && us[j] == AsUpdate(items[j])
    ensures |us| < |items| ==> !HasKeys(items[|us|])
    decreases |items|
  {
    if items == [] || !HasKeys(items[0]) then []
    else [AsUpdate(items[0])] + ReadUpdates(items[1..])
  }

  /** The index of the last update that names `id`. */
  function LastUpdateFor(us: seq<ProgressUpdate>, id: string): (r: Option<nat>)
    ensures r.Some? ==> r.value < |us| && us[r.value].bugId == id
                        && forall j :: r.value < j < |us| ==> us[j].bugId != id
    ensures r.None? ==> forall j :: 0 <= j < |us| ==> us[j].bugId != id
    decreases |us|
  {
    if us == [] then None
    else if us[|us| - 1].bugId == id then Some(|us| - 1)
    else LastUpdateFor(us[..|us| - 1], id)
  }

  /** Saving progress overwrites: a row ends with the status and notes of the
      LAST update naming it, whatever its notes were; unnamed rows keep
      theirs; no row is added. */
  lemma {:induction false} ProgressLastWins(rows: map<string, BugReport>, us: seq<ProgressUpdate>, now: Timestamp)
    ensures ApplyProgress(rows, us, now).Keys == rows.Keys
    ensures forall k :: k in rows ==>
      ApplyProgress(rows, us, now)[k] ==
        match LastUpdateFor(us, k)
        case None => rows[k]
        case Some(i) => ProgressRow(rows[k], us[i], now)
    decreases |us|
  {
    if us != [] {
      ProgressLastWins(rows, us[..|us| - 1], now);
      forall k | k in rows
        ensures ApplyProgress(rows, us, now)[k] ==
          match LastUpdateFor(us, k)
          case None => rows[k]
          case Some(i) => ProgressRow(rows[k], us[i], now)
      {
        var last := us[|us| - 1];
        if last.bugId != k {
          assert LastUpdateFor(us, k) == LastUpdateFor(us[..|us| - 1], k);
          match LastUpdateFor(us, k)
          case None =>
          case Some(i) => assert us[i] == us[..|us| - 1][i];
        } else {
          var before := ApplyProgress(rows, us[..|us| - 1], now)[k];
          assert ProgressRow(before, last, now) == ProgressRow(rows[k], last, now);
        }
      }
    }
  }

  lemma ApplyProgressWellFormed(rows: map<string, BugReport>, us: seq<ProgressUpdate>, now: Timestamp)
    requires WellFormed(rows)
    ensures WellFormed(ApplyProgress(rows, us, now))
  {
    ProgressLastWins(rows, us, now);
    forall k | k in ApplyProgress(rows, us, now)
      ensures ApplyProgress(rows, us, now)[k].bugId == k
      ensures AssignmentConsistent(ApplyProgress(rows, us, now)[k])
    {
      match LastUpdateFor(us, k)
      case None =>
      case Some(i) =>
    }
  }

  // ---------------------------------------------------------------------------
  // Bulk updates by an automated caller (`ai_manage_bugs`)

  datatype Field = SeverityField | CategoryField | StatusField

  /** One element of the `updates` list; `None` is a missing key or null. */
  datatype UpdateItem = UpdateItem(
    bugId: Option<string>,
    severity: Option<string>,
    category: Option<string>,
    status: Option<string>,
    notes: Option<string>)

  /** The `updates` argument: missing, not a list, or a list of items. */
  datatype UpdatesArg = NoUpdates | NotAList | UpdateList(items: seq<UpdateItem>)

  /** One entry of `applied`, `"Bug <id[:8]> <field> → <value>"`. */
  datatype AppliedChange = AppliedChange(bugId: string, field: Field, value: string)

  /** One entry of `errors`. */
  datatype ItemError = MissingBugId(item: UpdateItem) | UpdateFailed(bugId: string, reason: string)

  datatype ManageResult =
    | ManageRejected(error: string)
    | ManageReport(applied: seq<AppliedChange>, errors: seq<ItemError>)

  /** The state the loop of `ai_manage_bugs` carries. */
  datatype Batch = Batch(rows: map<string, BugReport>, applied: seq<AppliedChange>, errors: seq<ItemError>)

  /** The first eight characters of an id, as the applied messages show it. */
  function ShortId(id: string): (r: string)
    ensures |r| <= 8 && |r| <= |id| && r == id[..|r|]
    ensures |id| >= 8 ==> |r| == 8
  {
    if |id| <= 8 then id else id[..8]
  }

  function SetField(b: BugReport, f: Field, value: string, now: Timestamp): BugReport {
    match f
    case SeverityField => b.(severity := Some(value), updatedAt := now)
    case CategoryField => b.(category := Some(value), updatedAt := now)
    case StatusField => b.(status := value, updatedAt := now)
  }

  /** One UPDATE of one column: a missing id changes no row but the change
      is still reported as applied. */
  function ApplyField(acc: Batch, id: string, f: Field, value: Option<string>, now: Timestamp): Batch {
    if !Truthy(value) then acc
    else
      var rows := if id in acc.rows then acc.rows[id := SetField(acc.rows[id], f, value.value, now)] else acc.rows;
      Batch(rows, acc.applied + [AppliedChange(ShortId(id), f, value.value)], acc.errors)
  }

  /** The reason the notes branch fails: its SELECT names a `notes` column
      that the schema does not have. */
  const NotesColumnError: string := "no such column: notes"

  /** The schema has no `notes` column, so selecting it fails. */
  lemma NotesSelectFails<T>(rowsRead: T)
    ensures RunSelect(["notes"], rowsRead).Err?
  {
    assert ["notes"][0] == "notes";
    assert "notes" !in SchemaColumns;
  }

  /** One item: a missing id is an error entry; otherwise severity, category
      and status are written in that order when truthy, and truthy notes make
      the item fail after those writes. */
  function ManageItem(acc: Batch, item: UpdateItem, now: Timestamp): Batch {
    if !Truthy(item.bugId) then acc.(errors := acc.errors + [MissingBugId(item)])
    else
      var id := item.bugId.value;
      var b1 := ApplyField(acc, id, SeverityField, item.severity, now);
      var b2 := ApplyField(b1, id, CategoryField, item.category, now);
      var b3 := ApplyField(b2, id, StatusField, item.status, now);
      if Truthy(item.notes) then
        b3.(errors := b3.errors + [UpdateFailed(id, NotesColumnError)])
      else b3
  }

  function ManageAll(acc: Batch, items: seq<UpdateItem>, now: Timestamp): Batch
    decreases |items|
  {
    if items == [] then acc
    else ManageItem(ManageAll(acc, items[..|items| - 1], now), items[|items| - 1], now)
  }

  function B2N(b: bool): nat { if b then 1 else 0 }

  /** How many column writes an item causes. */
  function FieldCount(item: UpdateItem): nat {
    if !Truthy(item.bugId) then 0
    else B2N(Truthy(item.severity)) + B2N(Truthy(item.category)) + B2N(Truthy(item.status))
  }

  /** How many error entries an item causes. */
  function ErrorCount(item: UpdateItem): nat {
    if !Truthy(item.bugId) then 1 else B2N(Truthy(item.notes))
  }

  function SumFields(items: seq<UpdateItem>): nat
    decreases |items|
  {
    if items == [] then 0 else SumFields(items[..|items| - 1]) + FieldCount(items[|items| - 1])
  }

  function SumErrors(items: seq<UpdateItem>): nat
    decreases |items|
  {
    if items == [] then 0 else SumErrors(items[..|items| - 1]) + ErrorCount(items[|items| - 1])
  }

  /** `applied_count` is the number of truthy severity/category/status values
      over the items that have an id, whether or not the id exists;
      `error_count` is the number of items without an id plus the items with
      truthy notes. Every item is processed: none aborts the batch. */
  lemma {:induction false} ManageCounts(acc: Batch, items: seq<UpdateItem>, now: Timestamp)
    ensures |ManageAll(acc, items, now).applied| == |acc.applied| + SumFields(items)
    ensures |ManageAll(acc, items, now).errors| == |acc.errors| + SumErrors(items)
    ensures ManageAll(acc, items, now).rows.Keys == acc.rows.Keys
    decreases |items|
  {
    if items != [] {
      ManageCounts(acc, items[..|items| - 1], now);
    }
  }

  /** A row no item names is left as it was. */
  lemma {:induction false} ManageLeavesOthers(acc: Batch, items: seq<UpdateItem>, now: Timestamp, k: string)
    requires k in acc.rows
    requires forall i :: 0 <= i < |items| ==> items[i].bugId != Some(k)
    ensures k in ManageAll(acc, items, now).rows && ManageAll(acc, items, now).rows[k] == acc.rows[k]
    decreases |items|
  {
    if items != [] {
      ManageLeavesOthers(acc, items[..|items| - 1], now, k);
      ManageCounts(acc, items[..|items| - 1], now);
    }
  }

  /** No bulk update touches an assignee or assignment time. */
  lemma {:induction false} ManageWellFormed(acc: Batch, items: seq<UpdateItem>, now: Timestamp)
    requires WellFormed(acc.rows)
    ensures WellFormed(ManageAll(acc, items, now).rows)
    decreases |items|
  {
    if items != [] {
      ManageWellFormed(acc, items[..|items| - 1], now);
    }
  }

  /** An id that is not in the table is reported as applied and produces
      no error entry, next to an existing id that is updated. */
  lemma UnknownIdReportedApplied(b: BugReport, now: Timestamp)
    requires b.bugId == "a"
    ensures var items := [UpdateItem(Some("a"), Some("High"), None, None, None),
                          UpdateItem(Some("zz"), Some("Low"), None, None, None)];
            var r := ManageAll(Batch(map["a" := b], [], []), items, now);
            |r.applied| == 2 && r.errors == [] && r.rows.Keys == {"a"} && r.rows["a"].severity == Some("High")
  {
    var items := [UpdateItem(Some("a"), Some("High"), None, None, None),
                  UpdateItem(Some("zz"), Some("Low"), None, None, None)];
    assert items[..1] == [items[0]];
    assert items[..1][..0] == [];
  }

  // ---------------------------------------------------------------------------
  // Bug details

  /** The columns `get_bug_details` selects and returns: every column except
      the reporter's user id, name and session and the screenshot's name. */
  datatype BugDetails = BugDetails(
    bugId: string,
    title: string,
    description: string,
    reproductionSteps: Option<string>,
    severity: Option<string>,
    category: Option<string>,
    status: string,
    assignedTo: Option<string>,
    assignedAt: Option<Timestamp>,
    progressNotes: Option<string>,
    systemInfo: string,
    logContext: Option<string>,
    screenshotPath: Option<string>,
    reportedAt: Timestamp,
    updatedAt: Timestamp)

  const DetailsColumns: seq<string> := [
    "bug_id", "title", "description", "reproduction_steps", "severity", "category",
    "status", "assigned_to", "assigned_at", "progress_notes", "system_info",
    "log_context", "screenshot_path", "reported_at", "updated_at"]

  function DetailsOf(b: BugReport): BugDetails {
    BugDetails(b.bugId, b.title, b.description, b.reproductionSteps, b.severity, b.category,
               b.status, b.assignedTo, b.assignedAt, b.progressNotes, b.systemInfo,
               b.logContext, b.screenshotPath, b.reportedAt, b.updatedAt)
  }

  /** The details SELECT names only schema columns, so it succeeds on every
      table. Two rows that differ only in the reporter's identity and the
      screenshot's name give the same details, and rows whose details agree
      agree on every other column. */
  lemma DetailsSelectSucceeds<T>(rowsRead: T, b: BugReport, c: BugReport)
    ensures RunSelect(DetailsColumns, rowsRead) == Ok(rowsRead)
    ensures DetailsOf(b) == DetailsOf(c) <==>
      b.(userId := c.userId, username := c.username, sessionId := c.sessionId, screenshotName := c.screenshotName) == c
  {
    forall i | 0 <= i < |DetailsColumns|
      ensures DetailsColumns[i] in SchemaColumns
    {
    }
  }

  // ---------------------------------------------------------------------------
  // The store

  /** The outcome `ai_fix_bug` returns. */
  datatype FixOutcome = FixError(message: string) | FixSuccess(bugId: string, newStatus: string)

  class BugStore {
    var rows: map<string, BugReport>

    ghost predicate Valid()
      reads this
    {
      WellFormed(rows)
    }

    constructor ()
      ensures Valid() && rows == map[]
    {
      rows := map[];
    }

    /** `submit_bug_report`: one new row under the fresh id, status 'New',
        no severity, category, assignee, assignment time or progress notes. */
    method Submit(bugId: string, userId: string, username: string, sessionId: string, systemInfo: string,
                  title: string, description: string, reproductionSteps: Option<string>, logContext: Option<string>,
                  screenshotData: Option<string>, screenshotName: Option<string>, screenshotDir: string,
                  screenshotSaved: bool, now: Timestamp)
      returns (id: string)
      requires Valid()
      requires bugId !in rows
      modifies this
      ensures Valid()
      ensures id == bugId
      ensures rows.Keys == old(rows).Keys + {bugId}
      ensures forall k :: k in old(rows) ==> rows[k] == old(rows)[k]
      ensures var b := rows[bugId];
              && b.status == StatusNew
              && b.severity.None? && b.category.None?
              && b.assignedTo.None? && b.assignedAt.None? && b.progressNotes.None?
              && b.title == title && b.description == description
              && b.reproductionSteps == reproductionSteps && b.logContext == logContext
              && b.username == username && b.userId == userId && b.sessionId == sessionId
              && b.systemInfo == systemInfo && b.screenshotName == screenshotName
              && b.screenshotPath == ScreenshotPathFor(screenshotDir, bugId, screenshotData, screenshotName, screenshotSaved)
              && b.reportedAt == now && b.updatedAt == now
    {
      var path := ScreenshotPathFor(screenshotDir, bugId, screenshotData, screenshotName, screenshotSaved);
      var b := BugReport(bugId, userId, username, sessionId, title, description, reproductionSteps,
                         None, None, systemInfo, logContext, path, screenshotName,
                         StatusNew, None, None, None, now, now);
      rows := rows[bugId := b];
      id := bugId;
    }

    /** `get_bug_details`: the fifteen selected columns of the row, or
        nothing for an unknown id. */
    method GetBugDetails(bugId: string) returns (r: Option<BugDetails>)
      requires Valid()
      ensures r.Some? <==> bugId in rows
      ensures r.Some? ==> r.value == DetailsOf(rows[bugId]) && r.value.bugId == bugId
    {
      if bugId in rows {
        r := Some(DetailsOf(rows[bugId]));
      } else {
        r := None;
      }
    }

    /** `update_bug_severity`: only severity and updated_at change; an empty
        value clears the severity; an unknown id changes nothing. */
    method SetSeverity(bugId: string, severity: Option<string>, now: Timestamp)
      requires Valid()
      modifies this
      ensures Valid()
      ensures bugId in old(rows) ==>
        rows == old(rows)[bugId := old(rows)[bugId].(severity := NoneIfEmpty(severity), updatedAt := now)]
      ensures bugId !in old(rows) ==> rows == old(rows)
    {
      if bugId in rows {
        rows := rows[bugId := rows[bugId].(severity := NoneIfEmpty(severity), updatedAt := now)];
      }
    }

    /** `update_bug_category`: as `SetSeverity`, for the category column. */
    method SetCategory(bugId: string, category: Option<string>, now: Timestamp)
      requires Valid()
      modifies this
      ensures Valid()
      ensures bugId in old(rows) ==>
        rows == old(rows)[bugId := old(rows)[bugId].(category := NoneIfEmpty(category), updatedAt := now)]
      ensures bugId !in old(rows) ==> rows == old(rows)
    {
      if bugId in rows {
        rows := rows[bugId := rows[bugId].(category := NoneIfEmpty(category), updatedAt := now)];
      }
    }

    /** `update_bug_status`: the status is written verbatim from any status. */
    method SetStatus(bugId: string, status: string, now: Timestamp)
      requires Valid()
      modifies this
      ensures Valid()
      ensures bugId in old(rows) ==>
        rows == old(rows)[bugId := old(rows)[bugId].(status := status, updatedAt := now)]
      ensures bugId !in old(rows) ==> rows == old(rows)
    {
      if bugId in rows {
        rows := rows[bugId := rows[bugId].(status := status, updatedAt := now)];
      }
    }

    /** `_assign_bugs_to_me`: one UPDATE per parsed id; the count is the number
        of parsed ids, including ids that match no row. */
    method AssignToMe(bugIds: string, username: string, now: Timestamp) returns (count: nat)
      requires Valid()
      modifies this
      ensures Valid()
      ensures rows == AssignAll(old(rows), ParseIdList(bugIds), username, now)
      ensures count == |ParseIdList(bugIds)|
    {
      var ids := ParseIdList(bugIds);
      count := AssignIds(ids, username, now);
    }

    /** The UPDATE loop of `_assign_bugs_to_me`, over the parsed ids. */
    method AssignIds(ids: seq<string>, username: string, now: Timestamp) returns (count: nat)
      requires Valid()
      modifies this
      ensures Valid()
      ensures rows == AssignAll(old(rows), ids, username, now)
      ensures count == |ids|
    {
      var i := 0;
      while i < |ids|
        invariant 0 <= i <= |ids|
        invariant rows == AssignAll(old(rows), ids[..i], username, now)
      {
        var id := ids[i];
        if id in rows {
          rows := rows[id := AssignedRow(rows[id], username, now)];
        }
        assert ids[..i + 1][..i] == ids[..i];
        i := i + 1;
      }
      assert ids[..|ids|] == ids;
      AssignAllWellFormed(old(rows), ids, username, now);
      count := |ids|;
    }

    /** `_save_bug_progress`: status and progress notes of each listed bug are
        overwritten, in list order; missing notes become "". An item without
        `bug_id` or `status` raises KeyError: the loop stops there and the
        handler fails. The writes already made stay pending on the shared
        connection, which the next commit of any handler makes durable, so
        the table is shown as that connection sees it. */
    method SaveProgress(items: seq<ProgressItem>, now: Timestamp) returns (r: Result<nat>)
      requires Valid()
      modifies this
      ensures Valid()
      ensures rows == ApplyProgress(old(rows), ReadUpdates(items), now)
      ensures r.Ok? <==> forall j :: 0 <= j < |items| ==> HasKeys(items[j])
      ensures r.Ok? ==> r.value == |items|
    {
      var i := 0;
      while i < |items|
        invariant 0 <= i <= |items|
        invariant forall j :: 0 <= j < i ==> HasKeys(items[j])
        invariant i <= |ReadUpdates(items)|
        invariant rows == ApplyProgress(old(rows), ReadUpdates(items)[..i], now)
      {
        var it := items[i];
        if !HasKeys(it) {
          assert ReadUpdates(items)[..i] == ReadUpdates(items);
          ApplyProgressWellFormed(old(rows), ReadUpdates(items), now);
          return Err("KeyError");
        }
        var u := AsUpdate(it);
        if u.bugId in rows {
          rows := rows[u.bugId := ProgressRow(rows[u.bugId], u, now)];
        }
        assert ReadUpdates(items)[..i + 1][..i] == ReadUpdates(items)[..i];
        i := i + 1;
      }
      assert ReadUpdates(items)[..i] == ReadUpdates(items);
      ApplyProgressWellFormed(old(rows), ReadUpdates(items), now);
      r := Ok(|items|);
    }

    /** `_resolve_bug`: status 'Resolved' from any status. */
    method Resolve(bugId: string, now: Timestamp)
      requires Valid()
      modifies this
      ensures Valid()
      ensures bugId in old(rows) ==>
        rows == old(rows)[bugId := old(rows)[bugId].(status := StatusResolved, updatedAt := now)]
      ensures bugId !in old(rows) ==> rows == old(rows)
    {
      if bugId in rows {
        rows := rows[bugId := rows[bugId].(status := StatusResolved, updatedAt := now)];
      }
    }

    /** `_send_bug_back_to_dev`: the tester's reason is appended to the notes,
        the status goes back to 'Assigned', the assignee stays. */
    method SendBack(bugId: string, tester: string, reason: string, stamp: string, now: Timestamp)
      requires Valid()
      modifies this
      ensures Valid()
      ensures bugId in old(rows) ==>
        rows == old(rows)[bugId := old(rows)[bugId].(
          status := StatusAssigned,
          progressNotes := Some(AppendNote(old(rows)[bugId].progressNotes, stamp, "Sent back by", tester, reason)),
          updatedAt := now)]
      ensures bugId !in old(rows) ==> rows == old(rows)
    {
      if bugId in rows {
        var b := rows[bugId];
        var notes := AppendNote(b.progressNotes, stamp, "Sent back by", tester, reason);
        rows := rows[bugId := b.(status := StatusAssigned, progressNotes := Some(notes), updatedAt := now)];
      }
    }

    /** `ai_fix_bug`: on a known id the fix notes are appended and the status
        becomes 'Good-to-Test'; an unknown id is an error and changes nothing. */
    method AiFixBug(bugId: string, fixNotes: string, aiName: string, stamp: string, now: Timestamp)
      returns (r: FixOutcome)
      requires Valid()
      modifies this
      ensures Valid()
      ensures bugId !in old(rows) ==> r == FixError("Bug not found") && rows == old(rows)
      ensures bugId in old(rows) ==>
        && r == FixSuccess(bugId, StatusGoodToTest)
        && rows == old(rows)[bugId := old(rows)[bugId].(
             status := StatusGoodToTest,
             progressNotes := Some(AppendNote(old(rows)[bugId].progressNotes, stamp, "Fixed by", aiName, fixNotes)),
             updatedAt := now)]
    {
      if bugId !in rows {
        return FixError("Bug not found");
      }
      var b := rows[bugId];
      var notes := AppendNote(b.progressNotes, stamp, "Fixed by", aiName, fixNotes);
      rows := rows[bugId := b.(status := StatusGoodToTest, progressNotes := Some(notes), updatedAt := now)];
      r := FixSuccess(bugId, StatusGoodToTest);
    }

    /** `ai_manage_bugs`: each item is applied on its own; a bad item adds an
        error entry and the loop goes on. */
    method AiManageBugs(updates: UpdatesArg, now: Timestamp) returns (r: ManageResult)
      requires Valid()
      modifies this
      ensures Valid()
      ensures updates.NoUpdates? ==> r == ManageRejected("Updates parameter is required") && rows == old(rows)
      ensures updates.NotAList? ==> r == ManageRejected("Updates must be an array") && rows == old(rows)
      ensures updates.UpdateList? ==>
        var b := ManageAll(Batch(old(rows), [], []), updates.items, now);
        rows == b.rows && r == ManageReport(b.applied, b.errors)
    {
      match updates {
        case NoUpdates => return ManageRejected("Updates parameter is required");
        case NotAList => return ManageRejected("Updates must be an array");
        case UpdateList(items) =>
          var applied: seq<AppliedChange> := [];
          var errors: seq<ItemError> := [];
          var i := 0;
          while i < |items|
            invariant 0 <= i <= |items|
            invariant Batch(rows, applied, errors) == ManageAll(Batch(old(rows), [], []), items[..i], now)
          {
            var item := items[i];
            var next := ManageItem(Batch(rows, applied, errors), item, now);
            rows, applied, errors := next.rows, next.applied, next.errors;
            assert items[..i + 1][..i] == items[..i];
            i := i + 1;
          }
          assert items[..|items|] == items;
          ManageWellFormed(Batch(old(rows), [], []), items, now);
          r := ManageReport(applied, errors);
      }
    }

    /** The rows in some order, each exactly once: the enumeration every
        SELECT of the views starts from. */
    method Snapshot() returns (all: seq<BugReport>)
      requires Valid()
      ensures |all| == |rows|
      ensures forall b :: b in all <==> b in rows.Values
      ensures forall i, j :: 0 <= i < j < |all| ==> all[i].bugId != all[j].bugId
    {
      all := Enumerate(rows);
    }
  }

  /** The rows of a table in some order, each exactly once. */
  method Enumerate(table: map<string, BugReport>) returns (all: seq<BugReport>)
    requires WellFormed(table)
    ensures |all| == |table|
    ensures forall b :: b in all <==> b in table.Values
    ensures forall i, j :: 0 <= i < j < |all| ==> all[i].bugId != all[j].bugId
  {
    var ids := ListKeys(table.Keys);
    all := seq(|ids|, i requires 0 <= i < |ids| => table[ids[i]]);
    forall b | b in table.Values
      ensures b in all
    {
      var k :| k in table && table[k] == b;
      var i :| 0 <= i < |ids| && ids[i] == k;
      assert all[i] == b;
    }
  }

  /** The members of a set of ids in some order, each exactly once. */
  method ListKeys(keys: set<string>) returns (ids: seq<string>)
    ensures |ids| == |keys|
    ensures forall k :: k in ids <==> k in keys
    ensures forall i, j :: 0 <= i < j < |ids| ==> ids[i] != ids[j]
  {
    ids := [];
    var left := keys;
    while left != {}
      invariant left <= keys
      invariant |ids| + |left| == |keys|
      invariant forall k :: k in ids <==> k in keys && k !in left
      invariant forall i, j :: 0 <= i < j < |ids| ==> ids[i] != ids[j]
      decreases left
    {
      var k :| k in left;
      ids := ids + [k];
      left := left - {k};
    }
  }
}
