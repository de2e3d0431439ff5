/**
 * The read-only views over the `bug_reports` table: each is a SELECT with a
 * WHERE filter, an ORDER BY and sometimes a LIMIT, followed by a projection
 * of the rows into the dictionaries the handlers display.
 *
 * SQL leaves the order of rows with equal sort keys open, so a view is
 * specified by what any correct answer satisfies (`ViewOf`): sorted by the
 * view's key, made of selected rows only, no longer than the limit, and
 * leaving out a selected row only when the limit is reached and the row
 * ranks no earlier than every row returned. `View` is one such answer.
 */
module BugViews {
  import opened Common
  import opened BugReports

  // ---------------------------------------------------------------------------
  // Orderings

  /** The ORDER BY clauses the views use. */
  datatype Ordering =
    | ByRankThenReported   // severity rank, then reported_at DESC
    | ByRankThenAssigned   // severity rank, then assigned_at DESC
    | ByRank               // severity rank only
    | ByReported           // reported_at DESC
    | ByUpdated            // updated_at DESC

  /** A sort key: `primary` ascending, then `secondary` descending. */
  datatype SortKey = SortKey(primary: int, secondary: int)

  /** SQLite sorts NULL before every value, so a missing assigned_at comes
      last under DESC: it is keyed below every timestamp. */
  function AssignedAtKey(t: Option<Timestamp>): (k: int)
    ensures t.None? ==> k < 0
    ensures t.Some? ==> k == t.value
  {
    if t.Some? then t.value else -1
  }

  function Key(b: BugReport, o: Ordering): SortKey {
    match o
    case ByRankThenReported => SortKey(SeverityRank(b.severity), b.reportedAt)
    case ByRankThenAssigned => SortKey(SeverityRank(b.severity), AssignedAtKey(b.assignedAt))
    case ByRank => SortKey(SeverityRank(b.severity), 0)
    case ByReported => SortKey(0, b.reportedAt)
    case ByUpdated => SortKey(0, b.updatedAt)
  }

  predicate KeyLe(a: SortKey, b: SortKey) {
    a.primary < b.primary || (a.primary == b.primary && a.secondary >= b.secondary)
  }

  /** `a` may be listed before `b` under ordering `o`. */
  predicate Before(a: BugReport, b: BugReport, o: Ordering) {
    KeyLe(Key(a, o), Key(b, o))
  }

  predicate SortedBy(s: seq<BugReport>, o: Ordering) {
    forall i, j :: 0 <= i < j < |s| ==> Before(s[i], s[j], o)
  }

  /** Under a severity-first ordering a listed row never has a worse rank
      than a later one. */
  lemma SortedByRank(s: seq<BugReport>, o: Ordering)
    requires o.ByRankThenReported? || o.ByRankThenAssigned? || o.ByRank?
    requires SortedBy(s, o)
    ensures forall i, j :: 0 <= i < j < |s| ==> SeverityRank(s[i].severity) <= SeverityRank(s[j].severity)
  {
    forall i, j | 0 <= i < j < |s|
      ensures SeverityRank(s[i].severity) <= SeverityRank(s[j].severity)
    {
      assert Before(s[i], s[j], o);
    }
  }

  // ---------------------------------------------------------------------------
  // Sorting

  function Insert(x: BugReport, s: seq<BugReport>, o: Ordering): seq<BugReport>
    decreases |s|
  {
    if s == [] then [x]
    else if Before(x, s[0], o) then [x] + s
    else [s[0]] + Insert(x, s[1..], o)
  }

  lemma {:induction false} InsertElems(x: BugReport, s: seq<BugReport>, o: Ordering)
    ensures multiset(Insert(x, s, o)) == multiset(s) + multiset{x}
    decreases |s|
  {
    if s != [] {
      assert s == [s[0]] + s[1..];
      if !Before(x, s[0], o) {
        InsertElems(x, s[1..], o);
      }
    }
  }

  /** A row that may precede every row of a sorted list may head it. */
  lemma ConsSorted(y: BugReport, t: seq<BugReport>, o: Ordering)
    requires SortedBy(t, o)
    requires forall k :: 0 <= k < |t| ==> Before(y, t[k], o)
    ensures SortedBy([y] + t, o)
  {
    forall i, j | 0 <= i < j < |[y] + t|
      ensures Before(([y] + t)[i], ([y] + t)[j], o)
    {
      assert ([y] + t)[j] == t[j - 1];
      if i > 0 {
        assert ([y] + t)[i] == t[i - 1];
      }
    }
  }

  /** Inserting a row that comes after `y` keeps `y` a lower bound. */
  lemma InsertBound(y: BugReport, x: BugReport, s: seq<BugReport>, o: Ordering)
    requires Before(y, x, o)
    requires forall k :: 0 <= k < |s| ==> Before(y, s[k], o)
    ensures forall k :: 0 <= k < |Insert(x, s, o)| ==> Before(y, Insert(x, s, o)[k], o)
  {
    var t := Insert(x, s, o);
    InsertElems(x, s, o);
    forall k | 0 <= k < |t|
      ensures Before(y, t[k], o)
    {
      assert t[k] in multiset(t);
      if t[k] != x {
        assert t[k] in multiset(s);
        var i :| 0 <= i < |s| && s[i] == t[k];
      }
    }
  }

  lemma {:induction false} InsertSorted(x: BugReport, s: seq<BugReport>, o: Ordering)
    requires SortedBy(s, o)
    ensures SortedBy(Insert(x, s, o), o)
    decreases |s|
  {
    if s != [] {
      if Before(x, s[0], o) {
        forall k | 0 <= k < |s|
          ensures Before(x, s[k], o)
        {
          if k > 0 {
            assert Before(s[0], s[k], o);
          }
        }
        ConsSorted(x, s, o);
      } else {
        assert SortedBy(s[1..], o) by {
          forall i, j | 0 <= i < j < |s[1..]|
            ensures Before(s[1..][i], s[1..][j], o)
          {
            assert Before(s[i + 1], s[j + 1], o);
          }
        }
        InsertSorted(x, s[1..], o);
        assert forall k :: 0 <= k < |s[1..]| ==> Before(s[0], s[1..][k], o) by {
          forall k | 0 <= k < |s[1..]|
            ensures Before(s[0], s[1..][k], o)
          {
            assert s[1..][k] == s[k + 1];
          }
        }
        InsertBound(s[0], x, s[1..], o);
        ConsSorted(s[0], Insert(x, s[1..], o), o);
      }
    }
  }

  /** Insertion sort. */
  function Sort(s: seq<BugReport>, o: Ordering): seq<BugReport>
    decreases |s|
  {
    if s == [] then [] else Insert(s[0], Sort(s[1..], o), o)
  }

  lemma {:induction false} SortOrders(s: seq<BugReport>, o: Ordering)
    ensures SortedBy(Sort(s, o), o)
    decreases |s|
  {
    if s != [] {
      SortOrders(s[1..], o);
      InsertSorted(s[0], Sort(s[1..], o), o);
    }
  }

  lemma {:induction false} SortPermutes(s: seq<BugReport>, o: Ordering)
    ensures multiset(Sort(s, o)) == multiset(s)
    decreases |s|
  {
    if s != [] {
      var rest := Sort(s[1..], o);
      SortPermutes(s[1..], o);
      InsertElems(s[0], rest, o);
      assert Sort(s, o) == Insert(s[0], rest, o);
      assert multiset(s) == multiset{s[0]} + multiset(s[1..]) by {
        assert s == [s[0]] + s[1..];
      }
    }
  }

  /** Sorting orders the rows and neither loses nor adds one. */
  lemma SortSpec(s: seq<BugReport>, o: Ordering)
    ensures SortedBy(Sort(s, o), o)
    ensures multiset(Sort(s, o)) == multiset(s)
  {
    SortOrders(s, o);
    SortPermutes(s, o);
  }

  /** The example of the severity ordering: Low, Critical, Medium sort to
      Critical, Medium, Low. */
  lemma SeverityOrderExample(low: BugReport, critical: BugReport, medium: BugReport)
    requires low.severity == Some("Low") && critical.severity == Some("Critical") && medium.severity == Some("Medium")
    ensures Sort([low, critical, medium], ByRankThenReported) == [critical, medium, low]
  {
    assert [low, critical, medium][1..] == [critical, medium];
    assert [critical, medium][1..] == [medium];
    assert [medium][1..] == [];
    assert Sort([medium], ByRankThenReported) == [medium];
    assert Insert(critical, [medium], ByRankThenReported) == [critical, medium];
    assert Sort([critical, medium], ByRankThenReported) == [critical, medium];
    assert Insert(low, [medium], ByRankThenReported) == [medium, low];
    assert [critical, medium][1..] == [medium];
    assert Insert(low, [critical, medium], ByRankThenReported) == [critical] + [medium, low];
  }

  // ---------------------------------------------------------------------------
  // Filters and limits

  /** The WHERE clauses the views use. */
  datatype Selection =
    | OpenWith(statusFilter: Option<string>, severityFilter: Option<string>)  // not Resolved/Dismissed, optional exact filters
    | Unassigned                                                // New or Triaged, assignee NULL or ''
    | AssignedTo(username: string, clientId: Option<string>)   // caller's own open bugs
    | StatusIs(wanted: string)
    | StatusIn(statuses: seq<string>)
    | OnSomeonesDesk                                            // assignee set and non-empty, not terminal

  predicate Selects(sel: Selection, b: BugReport) {
    match sel
    case OpenWith(status, severity) =>
      !IsTerminal(b.status)
      && (status.Some? ==> b.status == status.value)
      && (severity.Some? ==> b.severity == severity)
    case Unassigned =>
      (b.status == StatusNew || b.status == StatusTriaged)
      && (b.assignedTo.None? || b.assignedTo == Some(""))
    case AssignedTo(username, clientId) =>
      // `assigned_to = ?` with a NULL client id matches nothing
      b.assignedTo.Some?
      && (b.assignedTo.value == username || b.assignedTo == clientId)
      && !IsTerminal(b.status)
    case StatusIs(status) => b.status == status
    case StatusIn(statuses) => b.status in statuses
    case OnSomeonesDesk => Truthy(b.assignedTo) && !IsTerminal(b.status)
  }

  function Select(rows: seq<BugReport>, sel: Selection): (r: seq<BugReport>)
    ensures |r| <= |rows|
    ensures forall b :: b in r <==> b in rows && Selects(sel, b)
    decreases |rows|
  {
    if rows == [] then []
    else
      var rest := Select(rows[1..], sel);
      assert rows == [rows[0]] + rows[1..];
      if Selects(sel, rows[0]) then [rows[0]] + rest else rest
  }

  /** SQL `LIMIT n`; SQLite reads a negative limit as no limit. */
  function Take(s: seq<BugReport>, limit: int): (r: seq<BugReport>)
    ensures limit < 0 || limit >= |s| ==> r == s
    ensures 0 <= limit < |s| ==> r == s[..limit]
  {
    if limit < 0 || limit >= |s| then s else s[..limit]
  }

  function View(rows: seq<BugReport>, sel: Selection, o: Ordering, limit: int): seq<BugReport> {
    Take(Sort(Select(rows, sel), o), limit)
  }

  /** What every correct answer to `SELECT ... WHERE sel ORDER BY o LIMIT limit`
      over `rows` satisfies. */
  ghost predicate ViewOf(v: seq<BugReport>, rows: seq<BugReport>, sel: Selection, o: Ordering, limit: int) {
    && SortedBy(v, o)
    && multiset(v) <= multiset(rows)
    && (forall b :: b in v ==> b in rows && Selects(sel, b))
    && (limit >= 0 ==> |v| <= limit)
    && (forall b :: b in rows && Selects(sel, b) && b !in v ==>
          0 <= limit == |v| && forall c :: c in v ==> Before(c, b, o))
  }

  /** A filter returns each row at most as often as the table holds it. */
  lemma {:induction false} SelectSub(rows: seq<BugReport>, sel: Selection)
    ensures multiset(Select(rows, sel)) <= multiset(rows)
    decreases |rows|
  {
    if rows != [] {
      SelectSub(rows[1..], sel);
      assert rows == [rows[0]] + rows[1..];
    }
  }

  /** The first `limit` rows of a sorted list are sorted and come before
      every row left out. */
  lemma TakeOfSorted(s: seq<BugReport>, o: Ordering, limit: int)
    requires SortedBy(s, o)
    ensures SortedBy(Take(s, limit), o)
    ensures forall b :: b in Take(s, limit) ==> b in s
    ensures limit >= 0 ==> |Take(s, limit)| <= limit
    ensures forall b :: b in s && b !in Take(s, limit) ==>
              0 <= limit == |Take(s, limit)| && forall c :: c in Take(s, limit) ==> Before(c, b, o)
  {
    var v := Take(s, limit);
    forall b | b in s && b !in v
      ensures 0 <= limit == |v| && forall c :: c in v ==> Before(c, b, o)
    {
      var j :| 0 <= j < |s| && s[j] == b;
      assert 0 <= limit < |s|;
      assert j >= limit;
      forall c | c in v
        ensures Before(c, b, o)
      {
        var i :| 0 <= i < |v| && v[i] == c;
        assert s[i] == c;
      }
    }
  }

  lemma ViewSpec(rows: seq<BugReport>, sel: Selection, o: Ordering, limit: int)
    ensures ViewOf(View(rows, sel, o, limit), rows, sel, o, limit)
  {
    var picked := Select(rows, sel);
    var s := Sort(picked, o);
    SortSpec(picked, o);
    assert forall b :: b in s <==> b in picked by {
      assert forall b :: b in s <==> b in multiset(s);
      assert forall b :: b in picked <==> b in multiset(picked);
    }
    TakeOfSorted(s, o, limit);
    SelectSub(rows, sel);
    if 0 <= limit < |s| {
      assert s == s[..limit] + s[limit..];
    }
  }

  /** A filter of a sorted list stays sorted. */
  lemma {:induction false} SelectKeepsOrder(s: seq<BugReport>, sel: Selection, o: Ordering)
    requires SortedBy(s, o)
    ensures SortedBy(Select(s, sel), o)
    decreases |s|
  {
    if s != [] {
      SelectKeepsOrder(s[1..], sel, o);
      var rest := Select(s[1..], sel);
      forall c | c in rest
        ensures Before(s[0], c, o)
      {
        var k :| 0 <= k < |s[1..]| && s[1..][k] == c;
        assert s[k + 1] == c;
      }
    }
  }

  // ---------------------------------------------------------------------------
  // The views

  /** `list_bug_reports` turns a filter equal to "none" in any letter case,
      or an empty one, into no filter. */
  function NormalizeFilter(f: Option<string>): (r: Option<string>)
    ensures r.None? <==> !Truthy(f) || Lower(f.value) == "none"
    ensures r.Some? ==> r == f
  {
    if Truthy(f) && Lower(f.value) != "none" then f else None
  }

  /** `list_bug_reports`: open bugs, exact status and severity filters,
      newest reported first, at most `limit`. */
  function OpenBugs(rows: seq<BugReport>, status: Option<string>, severity: Option<string>, limit: int): (v: seq<BugReport>)
    ensures ViewOf(v, rows, OpenWith(NormalizeFilter(status), NormalizeFilter(severity)), ByReported, limit)
    ensures forall b :: b in v ==> !IsTerminal(b.status)
    ensures forall i, j :: 0 <= i < j < |v| ==> v[i].reportedAt >= v[j].reportedAt
  {
    var sel := OpenWith(NormalizeFilter(status), NormalizeFilter(severity));
    ViewSpec(rows, sel, ByReported, limit);
    var v := View(rows, sel, ByReported, limit);
    assert forall i, j :: 0 <= i < j < |v| ==> Before(v[i], v[j], ByReported);
    v
  }

  /** `manage_bug_reports`: the open bugs, newest reported first. */
  function ManageQueue(rows: seq<BugReport>, limit: int): (v: seq<BugReport>)
    ensures ViewOf(v, rows, OpenWith(None, None), ByReported, limit)
    ensures forall b :: b in rows ==> (b in v ==> !IsTerminal(b.status))
  {
    ViewSpec(rows, OpenWith(None, None), ByReported, limit);
    View(rows, OpenWith(None, None), ByReported, limit)
  }

  /** The picker of `assign_bugs_interactive`: unassigned New or Triaged bugs,
      most severe first, then newest reported. */
  function AssignPicker(rows: seq<BugReport>): (v: seq<BugReport>)
    ensures ViewOf(v, rows, Unassigned, ByRankThenReported, -1)
    ensures forall b :: b in rows && Selects(Unassigned, b) ==> b in v
  {
    ViewSpec(rows, Unassigned, ByRankThenReported, -1);
    View(rows, Unassigned, ByRankThenReported, -1)
  }

  /** The caller's name: the caller, else the client id, else "unknown". */
  function CallerName(caller: Option<string>, clientId: Option<string>): (name: string)
    ensures Truthy(caller) ==> name == caller.value
    ensures !Truthy(caller) && Truthy(clientId) ==> name == clientId.value
    ensures !Truthy(caller) && !Truthy(clientId) ==> name == "unknown"
  {
    if Truthy(caller) then caller.value else if Truthy(clientId) then clientId.value else "unknown"
  }

  /** `my_assigned_bugs_table` and `my_assigned_bugs_html`: the caller's
      open bugs, most severe first, then most recently assigned. */
  function MyBugs(rows: seq<BugReport>, caller: Option<string>, clientId: Option<string>): (v: seq<BugReport>)
    ensures ViewOf(v, rows, AssignedTo(CallerName(caller, clientId), clientId), ByRankThenAssigned, -1)
    ensures forall b :: b in v ==> !IsTerminal(b.status) && b.assignedTo.Some?
    ensures forall b :: b in rows && !IsTerminal(b.status) && b.assignedTo == Some(CallerName(caller, clientId)) ==> b in v
  {
    var sel := AssignedTo(CallerName(caller, clientId), clientId);
    ViewSpec(rows, sel, ByRankThenAssigned, -1);
    View(rows, sel, ByRankThenAssigned, -1)
  }

  /** `update_my_bug_progress`: the same bugs, by severity only. */
  function ProgressFormBugs(rows: seq<BugReport>, caller: Option<string>, clientId: Option<string>): (v: seq<BugReport>)
    ensures ViewOf(v, rows, AssignedTo(CallerName(caller, clientId), clientId), ByRank, -1)
    ensures forall i, j :: 0 <= i < j < |v| ==> SeverityRank(v[i].severity) <= SeverityRank(v[j].severity)
  {
    var sel := AssignedTo(CallerName(caller, clientId), clientId);
    ViewSpec(rows, sel, ByRank, -1);
    var v := View(rows, sel, ByRank, -1);
    SortedByRank(v, ByRank);
    v
  }

  /** `bugs_ready_for_testing`: every 'Good-to-Test' bug, by severity. */
  function TestingQueue(rows: seq<BugReport>): (v: seq<BugReport>)
    ensures ViewOf(v, rows, StatusIs(StatusGoodToTest), ByRank, -1)
    ensures forall b :: b in rows ==> (b in v <==> b.status == StatusGoodToTest)
  {
    ViewSpec(rows, StatusIs(StatusGoodToTest), ByRank, -1);
    View(rows, StatusIs(StatusGoodToTest), ByRank, -1)
  }

  /** `audit_resolved_bugs`: resolved bugs, most recently updated first. */
  function ResolvedAudit(rows: seq<BugReport>, limit: int): (v: seq<BugReport>)
    ensures ViewOf(v, rows, StatusIs(StatusResolved), ByUpdated, limit)
    ensures forall i, j :: 0 <= i < j < |v| ==> v[i].updatedAt >= v[j].updatedAt
  {
    ViewSpec(rows, StatusIs(StatusResolved), ByUpdated, limit);
    var v := View(rows, StatusIs(StatusResolved), ByUpdated, limit);
    assert forall i, j :: 0 <= i < j < |v| ==> Before(v[i], v[j], ByUpdated);
    v
  }

  /** The status list of `get_bugs_for_ai`: New and Triaged when no status
      is given, otherwise the comma-separated pieces, trimmed (empty pieces
      are kept). */
  function AiStatusList(status: Option<string>): (r: seq<string>)
    ensures |r| >= 1
    ensures !Truthy(status) ==> r == [StatusNew, StatusTriaged]
    ensures Truthy(status) ==> |r| == |Split(status.value, ',')|
  {
    if !Truthy(status) then [StatusNew, StatusTriaged]
    else
      var parts := Split(status.value, ',');
      seq(|parts|, i requires 0 <= i < |parts| => Strip(parts[i]))
  }

  /** A status whose pieces are already trimmed reads as those pieces. */
  lemma AiStatusListOfPieces(status: string, ss: seq<string>)
    requires status != "" && Split(status, ',') == ss
    requires forall k :: 0 <= k < |ss| ==> Strip(ss[k]) == ss[k]
    ensures AiStatusList(Some(status)) == ss
  {
    var r := AiStatusList(Some(status));
    forall i | 0 <= i < |ss|
      ensures r[i] == ss[i]
    {
    }
  }

  /** Reading a comma-joined list of already-trimmed, comma-free statuses
      gives back exactly those statuses, in order. */
  lemma AiStatusListOfJoin(ss: seq<string>)
    requires |ss| >= 1 && Join(ss, ',') != ""
    requires forall k :: 0 <= k < |ss| ==> ',' !in ss[k] && Strip(ss[k]) == ss[k]
    ensures AiStatusList(Some(Join(ss, ','))) == ss
  {
    SplitJoin(ss, ',');
    AiStatusListOfPieces(Join(ss, ','), ss);
  }

  /** Reading a comma-joined list of comma-free statuses gives back each
      status trimmed, in order: `"New, Triaged"` selects New and Triaged. */
  lemma AiStatusListTrims(ss: seq<string>)
    requires |ss| >= 1 && Join(ss, ',') != ""
    requires forall k :: 0 <= k < |ss| ==> ',' !in ss[k]
    ensures AiStatusList(Some(Join(ss, ','))) == seq(|ss|, i requires 0 <= i < |ss| => Strip(ss[i]))
  {
    SplitJoin(ss, ',');
  }

  /** `"New, Triaged"` selects New and Triaged: the space after the comma is
      trimmed away. */
  lemma AiStatusListExample()
    ensures AiStatusList(Some("New, Triaged")) == [StatusNew, StatusTriaged]
  {
    var ss := ["New", " Triaged"];
    assert Join(ss, ',') == "New, Triaged" by {
      assert ss[1..] == [" Triaged"];
    }
    AiStatusListTrims(ss);
    StripNewTriaged();
  }

  lemma StripNewTriaged()
    ensures Strip("New") == StatusNew && Strip(" Triaged") == StatusTriaged
  {
    assert !IsSpace('N') && !IsSpace('d');
    assert TrimLeft("New") == "New";
    assert TrimRight("New") == "New";
    assert IsSpace(' ') && !IsSpace('T');
    assert " Triaged"[1..] == "Triaged";
    assert TrimLeft("Triaged") == "Triaged";
    assert TrimLeft(" Triaged") == "Triaged";
    assert TrimRight("Triaged") == "Triaged";
  }

  /** The columns the second `get_bugs_for_ai` selects. */
  const AiFeedColumns: seq<string> := [
    "bug_id", "title", "description", "reproduction_steps", "severity", "category", "status",
    "username", "reported_at", "system_info", "log_context", "assigned_to", "notes"]

  /** `get_bugs_for_ai` as written: its SELECT names `notes`. */
  function AiFeedAsWritten(rows: seq<BugReport>, status: Option<string>, limit: int): Result<seq<BugReport>> {
    RunSelect(AiFeedColumns, View(rows, StatusIn(AiStatusList(status)), ByReported, limit))
  }

  /** The AI feed as written fails on every call, whatever the table holds. */
  lemma AiFeedAsWrittenAlwaysFails(rows: seq<BugReport>, status: Option<string>, limit: int)
    ensures AiFeedAsWritten(rows, status, limit).Err?
  {
    assert AiFeedColumns[12] == "notes";
    assert "notes" !in SchemaColumns;
  }

  /** `get_bugs_for_ai` with the `notes` column replaced by the schema's
      `progress_notes`: bugs whose status is in the list, newest first. */
  function AiFeed(rows: seq<BugReport>, status: Option<string>, limit: int): (r: Result<seq<BugReport>>)
    ensures r.Ok?
    ensures ViewOf(r.value, rows, StatusIn(AiStatusList(status)), ByReported, limit)
    ensures !Truthy(status) ==> forall b :: b in r.value ==> b.status == StatusNew || b.status == StatusTriaged
  {
    var columns := AiFeedColumns[..12] + ["progress_notes"];
    assert forall i :: 0 <= i < |columns| ==> columns[i] in SchemaColumns;
    ViewSpec(rows, StatusIn(AiStatusList(status)), ByReported, limit);
    RunSelect(columns, View(rows, StatusIn(AiStatusList(status)), ByReported, limit))
  }

  /** The columns `view_bug_report` selects. */
  const DetailColumns: seq<string> := [
    "bug_id", "username", "title", "description", "reproduction_steps", "severity",
    "category", "user_context", "system_info", "error_timestamp", "log_context",
    "screenshot_path", "screenshot_name", "status", "assigned_to", "reported_at"]

  /** `view_bug_report` as written: the row, or "Bug not found", after a
      SELECT that names `user_context` and `error_timestamp`. */
  function ViewBugReportAsWritten(table: map<string, BugReport>, bugId: string): Result<Option<BugReport>> {
    RunSelect(DetailColumns, if bugId in table then Some(table[bugId]) else None)
  }

  /** Viewing a report as written fails for every id, present or not. */
  lemma ViewBugReportAlwaysFails(table: map<string, BugReport>, bugId: string)
    ensures ViewBugReportAsWritten(table, bugId).Err?
  {
    assert DetailColumns[7] == "user_context";
    assert "user_context" !in SchemaColumns;
  }

  // ---------------------------------------------------------------------------
  // Projections

  /** Python's `value or default` on an optional string. */
  function OrDefault(v: Option<string>, default: string): (r: string)
    ensures Truthy(v) ==> r == v.value
    ensures !Truthy(v) ==> r == default
  {
    if Truthy(v) then v.value else default
  }

  /** One entry of `list_bug_reports`. */
  datatype ListEntry = ListEntry(
    bugId: string, title: string, severity: string, category: string, status: string,
    reportedBy: string, reportedAt: Timestamp, hasScreenshot: bool)

  function ListEntryOf(b: BugReport): (e: ListEntry)
    ensures e.severity == OrDefault(b.severity, "Unassigned")
    ensures e.category == OrDefault(b.category, "Uncategorized")
    ensures e.hasScreenshot <==> Truthy(b.screenshotName)
  {
    ListEntry(b.bugId, b.title, OrDefault(b.severity, "Unassigned"), OrDefault(b.category, "Uncategorized"),
              b.status, b.username, b.reportedAt, Truthy(b.screenshotName))
  }

  /** One entry of the caller's bug table. */
  datatype MyBugEntry = MyBugEntry(
    bugId: string, title: string, severity: string, category: string, status: string,
    description: string, assignedAt: Option<Timestamp>)

  function MyBugEntryOf(b: BugReport): (e: MyBugEntry)
    ensures |e.description| <= 83
    ensures e.severity == OrDefault(b.severity, "Unset")
  {
    MyBugEntry(b.bugId, b.title, OrDefault(b.severity, "Unset"), OrDefault(b.category, "Uncategorized"),
               b.status, Abbreviate(b.description, 80), b.assignedAt)
  }

  /** One entry of the resolved-bugs audit. */
  datatype AuditEntry = AuditEntry(
    bugId: string, title: string, severity: string, category: string, fixedBy: string,
    reported: Timestamp, resolved: Timestamp, notes: string)

  function AuditEntryOf(b: BugReport): (e: AuditEntry)
    ensures e.fixedBy == OrDefault(b.assignedTo, "Unknown")
    ensures |e.notes| <= 103
    ensures e.notes == Abbreviate(OrDefault(b.progressNotes, ""), 100)
    ensures e.resolved == b.updatedAt
  {
    AuditEntry(b.bugId, b.title, OrDefault(b.severity, "Unset"), OrDefault(b.category, "Uncategorized"),
               OrDefault(b.assignedTo, "Unknown"), b.reportedAt, b.updatedAt,
               Abbreviate(OrDefault(b.progressNotes, ""), 100))
  }

  // ---------------------------------------------------------------------------
  // Team dashboard

  /** The dashboard's rows: bugs on someone's desk, by severity. The SQL also
      orders by developer first; grouping makes that order irrelevant within
      a developer's list. */
  function DashboardRows(rows: seq<BugReport>): (v: seq<BugReport>)
    ensures ViewOf(v, rows, OnSomeonesDesk, ByRank, -1)
    ensures forall b :: b in rows ==> (b in v <==> Truthy(b.assignedTo) && !IsTerminal(b.status))
  {
    ViewSpec(rows, OnSomeonesDesk, ByRank, -1);
    View(rows, OnSomeonesDesk, ByRank, -1)
  }

  function Developer(b: BugReport): string {
    if b.assignedTo.Some? then b.assignedTo.value else ""
  }

  /** The rows of one developer, in list order. */
  function RowsOf(rows: seq<BugReport>, dev: string): (r: seq<BugReport>)
    ensures forall b :: b in r <==> b in rows && Developer(b) == dev
    ensures |r| <= |rows|
    decreases |rows|
  {
    if rows == [] then []
    else
      var init := RowsOf(rows[..|rows| - 1], dev);
      assert rows == rows[..|rows| - 1] + [rows[|rows| - 1]];
      if Developer(rows[|rows| - 1]) == dev then init + [rows[|rows| - 1]] else init
  }

  /** Each developer's list keeps the order of the rows it comes from. */
  lemma {:induction false} RowsOfKeepsOrder(rows: seq<BugReport>, dev: string, o: Ordering)
    requires SortedBy(rows, o)
    ensures SortedBy(RowsOf(rows, dev), o)
    decreases |rows|
  {
    if rows != [] {
      var init := rows[..|rows| - 1];
      var last := rows[|rows| - 1];
      assert SortedBy(init, o);
      RowsOfKeepsOrder(init, dev, o);
      forall c | c in RowsOf(init, dev)
        ensures Before(c, last, o)
      {
        var k :| 0 <= k < |init| && init[k] == c;
      }
    }
  }

  lemma RowsOfNone(rows: seq<BugReport>, dev: string)
    requires forall b :: b in rows ==> Developer(b) != dev
    ensures RowsOf(rows, dev) == []
  {
    if RowsOf(rows, dev) != [] {
      assert RowsOf(rows, dev)[0] in RowsOf(rows, dev);
    }
  }

  /** `devs` lists, without repeats, the developers of `seen`, and `groups`
      holds each one's rows of `seen` in order. */
  ghost predicate Grouped(seen: seq<BugReport>, devs: seq<string>, groups: map<string, seq<BugReport>>) {
    (forall d :: d in groups <==> d in devs)
    && (forall i, j :: 0 <= i < j < |devs| ==> devs[i] != devs[j])
    && (forall b :: b in seen ==> Developer(b) in groups)
    && (forall d :: d in groups ==> groups[d] == RowsOf(seen, d) && groups[d] != [])
  }

  lemma RowsOfSnoc(seen: seq<BugReport>, b: BugReport, d: string)
    ensures RowsOf(seen + [b], d) == if Developer(b) == d then RowsOf(seen, d) + [b] else RowsOf(seen, d)
  {
    assert (seen + [b])[..|seen|] == seen;
  }

  /** Appending a developer not listed yet keeps the list free of repeats. */
  lemma DistinctSnoc(devs: seq<string>, dev: string)
    requires forall i, j :: 0 <= i < j < |devs| ==> devs[i] != devs[j]
    requires dev !in devs
    ensures forall i, j :: 0 <= i < j < |devs + [dev]| ==> (devs + [dev])[i] != (devs + [dev])[j]
  {
    var devs' := devs + [dev];
    forall i, j | 0 <= i < j < |devs'|
      ensures devs'[i] != devs'[j]
    {
      assert devs'[i] == devs[i];
      if j < |devs| {
        assert devs'[j] == devs[j];
      }
    }
  }

  /** The new group of a developer not seen yet holds just that row, and the
      other groups are unchanged. */
  lemma NewGroupRows(seen: seq<BugReport>, b: BugReport, groups: map<string, seq<BugReport>>)
    requires forall d :: d in groups ==> groups[d] == RowsOf(seen, d) && groups[d] != []
    requires forall c :: c in seen ==> Developer(c) in groups
    requires Developer(b) !in groups
    ensures forall d :: d in groups[Developer(b) := [b]] ==>
      groups[Developer(b) := [b]][d] == RowsOf(seen + [b], d) && groups[Developer(b) := [b]][d] != []
  {
    var groups' := groups[Developer(b) := [b]];
    RowsOfNone(seen, Developer(b));
    forall d | d in groups'
      ensures groups'[d] == RowsOf(seen + [b], d) && groups'[d] != []
    {
      RowsOfSnoc(seen, b, d);
    }
  }

  /** A row of a developer not seen yet opens a new group. */
  lemma GroupStepNew(seen: seq<BugReport>, b: BugReport, devs: seq<string>, groups: map<string, seq<BugReport>>)
    requires Grouped(seen, devs, groups) && Developer(b) !in groups
    ensures Grouped(seen + [b], devs + [Developer(b)], groups[Developer(b) := [b]])
  {
    var dev := Developer(b);
    var next := seen + [b];
    var groups' := groups[dev := [b]];
    DistinctSnoc(devs, dev);
    NewGroupRows(seen, b, groups);
    forall c | c in next
      ensures Developer(c) in groups'
    {
      if c != b {
        assert c in seen;
      }
    }
  }

  /** A row of a developer already seen joins the end of that group. */
  lemma GroupStepOld(seen: seq<BugReport>, b: BugReport, devs: seq<string>, groups: map<string, seq<BugReport>>)
    requires Grouped(seen, devs, groups) && Developer(b) in groups
    ensures Grouped(seen + [b], devs, groups[Developer(b) := groups[Developer(b)] + [b]])
  {
    var dev := Developer(b);
    var next := seen + [b];
    var groups' := groups[dev := groups[dev] + [b]];
    forall d | d in groups'
      ensures groups'[d] == RowsOf(next, d) && groups'[d] != []
    {
      RowsOfSnoc(seen, b, d);
    }
    forall c | c in next
      ensures Developer(c) in groups'
    {
      if c != b {
        assert c in seen;
      }
    }
  }

  /** One turn of the grouping loop keeps the grouping exact. */
  lemma GroupStep(seen: seq<BugReport>, b: BugReport, devs: seq<string>, groups: map<string, seq<BugReport>>)
    requires Grouped(seen, devs, groups)
    ensures Developer(b) !in groups ==> Grouped(seen + [b], devs + [Developer(b)], groups[Developer(b) := [b]])
    ensures Developer(b) in groups ==> Grouped(seen + [b], devs, groups[Developer(b) := groups[Developer(b)] + [b]])
  {
    if Developer(b) in groups {
      GroupStepOld(seen, b, devs, groups);
    } else {
      GroupStepNew(seen, b, devs, groups);
    }
  }

  /** The grouping loop of `team_bug_dashboard`: developers in order of first
      appearance, each with its rows in list order. */
  method GroupByDeveloper(rows: seq<BugReport>) returns (devs: seq<string>, groups: map<string, seq<BugReport>>)
    ensures forall d :: d in groups <==> d in devs
    ensures forall i, j :: 0 <= i < j < |devs| ==> devs[i] != devs[j]
    ensures forall b :: b in rows ==> Developer(b) in groups
    ensures forall d :: d in groups ==> groups[d] == RowsOf(rows, d) && groups[d] != []
  {
    devs := [];
    groups := map[];
    var i := 0;
    while i < |rows|
      invariant 0 <= i <= |rows|
      invariant Grouped(rows[..i], devs, groups)
    {
      var b := rows[i];
      var dev := Developer(b);
      assert rows[..i + 1] == rows[..i] + [b];
      GroupStep(rows[..i], b, devs, groups);
      if dev !in groups {
        devs := devs + [dev];
        groups := groups[dev := [b]];
      } else {
        groups := groups[dev := groups[dev] + [b]];
      }
      i := i + 1;
    }
    assert rows[..|rows|] == rows;
  }

  /** The per-developer summary line of the dashboard. */
  datatype DevSummary = DevSummary(
    developer: string, total: nat, assignedBugs: nat, inProgress: nat, goodToTest: nat, critical: nat, high: nat)

  function CountStatus(bugs: seq<BugReport>, status: string): (n: nat)
    ensures n <= |bugs|
    decreases |bugs|
  {
    if bugs == [] then 0
    else CountStatus(bugs[1..], status) + (if bugs[0].status == status then 1 else 0)
  }

  /** Counts `severity or "Unset"` equal to `severity`. */
  function CountSeverity(bugs: seq<BugReport>, severity: string): (n: nat)
    ensures n <= |bugs|
    decreases |bugs|
  {
    if bugs == [] then 0
    else CountSeverity(bugs[1..], severity) + (if OrDefault(bugs[0].severity, "Unset") == severity then 1 else 0)
  }

  /** A bug has one status and one severity, so the per-status and the
      per-severity counts never add up to more than the total. */
  lemma {:induction false} CountsBounded(bugs: seq<BugReport>)
    ensures CountStatus(bugs, StatusAssigned) + CountStatus(bugs, StatusInProgress)
            + CountStatus(bugs, StatusGoodToTest) <= |bugs|
    ensures CountSeverity(bugs, "Critical") + CountSeverity(bugs, "High") <= |bugs|
    decreases |bugs|
  {
    if bugs != [] {
      CountsBounded(bugs[1..]);
    }
  }

  function Summarize(dev: string, bugs: seq<BugReport>): (s: DevSummary)
    ensures s.developer == dev && s.total == |bugs|
    ensures s.assignedBugs + s.inProgress + s.goodToTest <= s.total
    ensures s.critical + s.high <= s.total
  {
    CountsBounded(bugs);
    DevSummary(dev, |bugs|,
               CountStatus(bugs, StatusAssigned), CountStatus(bugs, StatusInProgress),
               CountStatus(bugs, StatusGoodToTest),
               CountSeverity(bugs, "Critical"), CountSeverity(bugs, "High"))
  }

  /** `team_bug_dashboard`: one summary per developer with open bugs, and
      each developer's bugs most severe first. */
  method TeamDashboard(rows: seq<BugReport>) returns (summary: seq<DevSummary>, groups: map<string, seq<BugReport>>)
    ensures |summary| == |groups|
    ensures forall k :: 0 <= k < |summary| ==>
      summary[k].developer in groups && summary[k] == Summarize(summary[k].developer, groups[summary[k].developer])
    ensures forall b :: b in rows && Truthy(b.assignedTo) && !IsTerminal(b.status) ==>
      b.assignedTo.value in groups && b in groups[b.assignedTo.value]
    ensures forall d :: d in groups ==> d != "" && SortedBy(groups[d], ByRank)
    ensures forall d, b :: d in groups && b in groups[d] ==> b in rows && !IsTerminal(b.status) && b.assignedTo == Some(d)
    ensures forall d :: d in groups ==> groups[d] == RowsOf(DashboardRows(rows), d)
    ensures forall i, j :: 0 <= i < j < |summary| ==> summary[i].developer != summary[j].developer
  {
    var listed := DashboardRows(rows);
    var devs: seq<string>;
    devs, groups := GroupByDeveloper(listed);
    forall d | d in groups
      ensures SortedBy(groups[d], ByRank)
    {
      RowsOfKeepsOrder(listed, d, ByRank);
    }
    forall d | d in groups
      ensures d != ""
    {
      var b := groups[d][0];
      assert b in RowsOf(listed, d);
    }
    assert |groups.Keys| == |devs| by {
      DistinctCard(devs);
      assert groups.Keys == set d | d in devs;
    }
    summary := seq(|devs|, k requires 0 <= k < |devs| => Summarize(devs[k], groups[devs[k]]));
  }

  lemma {:induction false} DistinctCard(s: seq<string>)
    requires forall i, j :: 0 <= i < j < |s| ==> s[i] != s[j]
    ensures |set d | d in s| == |s|
    decreases |s|
  {
    if s != [] {
      var init := s[..|s| - 1];
      DistinctCard(init);
      assert (set d | d in s) == (set d | d in init) + {s[|s| - 1]};
    }
  }
}
