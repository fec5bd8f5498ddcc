/** The second audit helper library (`src/utils/auditUtils.js`): entry
    construction, its own verb categories and permission table, log filters,
    CSV rendering and display labels. Where it departs from the ledger in
    `EnterpriseUtils`, the departure is proved. */
module AuditUtils {
  import opened Js
  import E = EnterpriseUtils

  // ------------------------------------------------------------ entries

  /** Fields `createAuditLog` never compares. */
  predicate Untracked(key: string)
  {
    key == "lastModified" || key == "addedDate"
  }

  /** The keys of `after` whose values differ from `before`, except the two
      untracked ones. */
  function AfterChangedKeys(before: Record, after: Record): set<string>
  {
    set k | k in after.Keys && E.Differs(before, after, k) && !Untracked(k)
  }

  /** What `createAuditLog` records as changes: nothing unless both sides
      are present; otherwise one correct entry per key of `AfterChangedKeys`. */
  predicate DescribesAfterChanges(changes: seq<E.FieldChange>, before: Option<Record>, after: Option<Record>)
  {
    if before.None? || after.None? then changes == []
    else
      E.KeysOf(changes) == AfterChangedKeys(before.value, after.value)
      && E.DistinctKeys(changes)
      && forall i :: 0 <= i < |changes| ==> changes[i] == E.Change(before.value, after.value, changes[i].key)
  }

  /** `createAuditLog`: walks the keys of `after`, recording each tracked key
      whose value differs, and stamps the entry as successful. */
  method CreateAuditLog(user: Record, action: string, resource: string, resourceId: Option<string>,
                        before: Option<Record>, after: Option<Record>, metadata: Record,
                        now: E.Moment, logId: string)
    returns (entry: E.AuditEntry)
    ensures DescribesAfterChanges(entry.changes, before, after)
    ensures entry.success && entry.errorMessage.None? && entry.ipAddress.None?
    ensures entry.category == Category(action) && entry.action == action
    ensures entry.userId == Get(user, "username") && entry.userName == Get(user, "name")
    ensures entry.userRole == Get(user, "role")
    ensures entry.resource == resource && entry.resourceId == resourceId
    ensures entry.before == before && entry.after == after && entry.metadata == metadata
    ensures entry.logId == logId && entry.timestamp == now
  {
    var changes: seq<E.FieldChange> := [];
    if before.Some? && after.Some? {
      var b, a := before.value, after.value;
      var keys := a.Keys;
      ghost var done: set<string> := {};
      while keys != {}
        invariant keys + done == a.Keys && keys !! done
        invariant E.KeysOf(changes) == set k | k in done && E.Differs(b, a, k) && !Untracked(k)
        invariant E.DistinctKeys(changes)
        invariant forall i :: 0 <= i < |changes| ==> changes[i] == E.Change(b, a, changes[i].key)
        invariant forall i :: 0 <= i < |changes| ==> changes[i].key in done
        decreases keys
      {
        var k :| k in keys;
        if Get(b, k) != Get(a, k) && k != "lastModified" && k != "addedDate" {
          E.KeysOfAppend(changes, E.FieldChange(k, Get(b, k), Get(a, k)));
          changes := changes + [E.FieldChange(k, Get(b, k), Get(a, k))];
        }
        keys := keys - {k};
        done := done + {k};
      }
    }
    entry := E.AuditEntry(logId, now, Get(user, "username"), Get(user, "name"), Get(user, "role"),
                          action, Category(action), resource, resourceId, before, after, changes,
                          true, None, None, metadata);
  }

  /** Against `calculateChanges`, `createAuditLog` misses exactly the fields
      present only before (removed fields) and the two untracked fields. */
  lemma ChangeKeysCompared(before: Record, after: Record)
    ensures AfterChangedKeys(before, after) <= E.ChangedKeys(before, after)
    ensures E.ChangedKeys(before, after) - AfterChangedKeys(before, after)
            == (set k | k in before.Keys && k !in after.Keys)
               + (set k | k in E.ChangedKeys(before, after) && Untracked(k))
  {
    var missed := E.ChangedKeys(before, after) - AfterChangedKeys(before, after);
    forall k | k in before.Keys && k !in after.Keys ensures k in missed {
      assert E.Differs(before, after, k);
    }
  }

  // ------------------------------------------------------------ categories

  /** This library's `getCategoryFromAction`: auth, then approval, then file
      (which here includes `export` but not the word `file`), then data. */
  function Category(action: string): (c: string)
    ensures c in {"auth", "file", "approval", "data", "system"}
  {
    if Contains(action, "login") || Contains(action, "logout") then "auth"
    else if Contains(action, "approved") || Contains(action, "rejected") then "approval"
    else if Contains(action, "upload") || Contains(action, "download") || Contains(action, "export") then "file"
    else if Contains(action, "created") || Contains(action, "updated") || Contains(action, "deleted") then "data"
    else "system"
  }

  predicate MentionsTransfer(a: string)
  {
    Contains(a, "upload") || Contains(a, "download") || Contains(a, "export")
  }

  /** Precedence auth > approval > file > data > system. */
  lemma CategoryPrecedence(a: string)
    ensures Category(a) == "auth" <==> E.MentionsAuth(a)
    ensures Category(a) == "approval" <==> !E.MentionsAuth(a) && E.MentionsDecision(a)
    ensures Category(a) == "file" <==> !E.MentionsAuth(a) && !E.MentionsDecision(a) && MentionsTransfer(a)
    ensures Category(a) == "data" <==>
              !E.MentionsAuth(a) && !E.MentionsDecision(a) && !MentionsTransfer(a) && E.MentionsData(a)
    ensures Category(a) == "system" <==>
              !E.MentionsAuth(a) && !E.MentionsDecision(a) && !MentionsTransfer(a) && !E.MentionsData(a)
  {
  }

  /** The two category functions disagree exactly when no auth verb occurs
      and either an approval verb meets a file verb of the ledger's list,
      or no approval verb occurs and `file`/`export` is the only file word. */
  lemma CategoriesDiffer(a: string)
    ensures Category(a) != E.Category(a) <==>
              !E.MentionsAuth(a)
              && ((E.MentionsFile(a) && E.MentionsDecision(a))
                  || (!E.MentionsDecision(a) && Contains(a, "file") && !MentionsTransfer(a))
                  || (!E.MentionsDecision(a) && !E.MentionsFile(a) && Contains(a, "export")))
  {
  }

  /** `file_approved` is an approval here but a file event in the ledger;
      `data_export` is a file event here but a system event there. */
  lemma CategoryExamples(fa: string, de: string)
    requires fa == "file_approved" && de == "data_export"
    ensures Category(fa) == "approval" && E.Category(fa) == "file"
    ensures Category(de) == "file" && E.Category(de) == "system"
  {
    FileApprovedVerbs(fa);
    DataExportVerbs(de);
  }

  lemma FileApprovedVerbs(a: string)
    requires a == "file_approved"
    ensures !E.MentionsAuth(a) && Contains(a, "file") && E.MentionsDecision(a)
  {
    FileApprovedLetters(a);
    Absent(a, "login", 'g');
    Absent(a, "logout", 'g');
    FileApprovedWords(a);
  }

  lemma FileApprovedLetters(a: string)
    requires a == "file_approved"
    ensures 'g' !in a
  {
  }

  lemma FileApprovedWords(a: string)
    requires a == "file_approved"
    ensures Contains(a, "file") && Contains(a, "approved")
  {
    assert a[..4] == "file";
    assert IsPrefix("file", a);
    assert a[5..13] == "approved";
    assert OccursAt(a, "approved", 5);
    ContainsIff(a, "approved");
  }

  lemma DataExportVerbs(a: string)
    requires a == "data_export"
    ensures !E.MentionsAuth(a) && !E.MentionsFile(a) && !E.MentionsDecision(a) && !E.MentionsData(a)
    ensures !Contains(a, "upload") && !Contains(a, "download") && Contains(a, "export")
  {
    DataExportLetters(a);
    Absent(a, "login", 'l'); Absent(a, "logout", 'l');
    Absent(a, "file", 'f'); Absent(a, "upload", 'u'); Absent(a, "download", 'w');
    Absent(a, "approved", 'v'); Absent(a, "rejected", 'j');
    Absent(a, "created", 'c'); Absent(a, "updated", 'u'); Absent(a, "deleted", 'l');
    DataExportWord(a);
  }

  lemma DataExportLetters(a: string)
    requires a == "data_export"
    ensures 'l' !in a && 'f' !in a && 'u' !in a && 'w' !in a && 'v' !in a && 'j' !in a && 'c' !in a
  {
  }

  lemma DataExportWord(a: string)
    requires a == "data_export"
    ensures Contains(a, "export")
  {
    assert a[5..11] == "export";
    assert OccursAt(a, "export", 5);
    ContainsIff(a, "export");
  }

  // ------------------------------------------------------------ permissions

  const ManagerGrants: seq<E.Grant> := [
    E.Grant("expense", "create"), E.Grant("expense", "read"), E.Grant("expense", "approve"), E.Grant("expense", "reject"),
    E.Grant("vendor", "read"), E.Grant("employee", "read"),
    E.Grant("file", "upload"), E.Grant("file", "download"), E.Grant("file", "view_own"), E.Grant("file", "export_own"),
    E.Grant("audit", "view_own")]

  const UserGrants: seq<E.Grant> := [
    E.Grant("expense", "create"), E.Grant("expense", "read_own"),
    E.Grant("vendor", "read"), E.Grant("employee", "read"),
    E.Grant("file", "upload"), E.Grant("file", "download_template")]

  function GrantsOf(role: Option<string>): seq<E.Grant>
  {
    if role == Some("manager") then ManagerGrants
    else if role == Some("user") then UserGrants
    else []
  }

  /** `PERMISSIONS[role] || []` of this library. */
  function Permissions(role: Option<string>): (perms: seq<string>)
    ensures role != Some("admin") ==> perms == E.Texts(GrantsOf(role))
  {
    if role == Some("admin") then ["*"] else E.Texts(GrantsOf(role))
  }

  /** `hasPermission(user, resource, action)`: resource first. */
  predicate HasPermission(user: Option<Record>, resource: string, action: string)
    ensures HasPermission(user, resource, action) ==> user.Some? && Truthy(user.value, "role")
    ensures user.Some? && Get(user.value, "role") == Some("admin") ==> HasPermission(user, resource, action)
  {
    if user.None? || !Truthy(user.value, "role") then false
    else
      var perms := Permissions(Get(user.value, "role"));
      if "*" in perms then true
      else resource + ":" + action in perms
  }

  const ManagerWords: seq<string> := ["expense", "create", "read", "approve", "reject", "vendor", "employee",
                                       "file", "upload", "download", "view_own", "export_own", "audit"]
  const UserWords: seq<string> := ["expense", "create", "read_own", "vendor", "read", "employee",
                                    "file", "upload", "download_template"]

  lemma ManagerWordsColonFree()
    ensures forall i :: 0 <= i < |ManagerWords| ==> ':' !in ManagerWords[i]
  {
    forall i | 0 <= i < |ManagerWords| ensures ':' !in ManagerWords[i] {
    }
  }

  lemma ManagerGrantsInWords()
    ensures forall i :: 0 <= i < |ManagerGrants| ==> ManagerGrants[i].resource in ManagerWords && ManagerGrants[i].action in ManagerWords
  {
  }

  lemma ManagerColonFree()
    ensures E.ColonFree(ManagerGrants)
  {
    ManagerWordsColonFree();
    ManagerGrantsInWords();
    E.FromWords(ManagerGrants, ManagerWords);
  }

  lemma UserWordsColonFree()
    ensures forall i :: 0 <= i < |UserWords| ==> ':' !in UserWords[i]
  {
    forall i | 0 <= i < |UserWords| ensures ':' !in UserWords[i] {
    }
  }

  lemma UserGrantsInWords()
    ensures forall i :: 0 <= i < |UserGrants| ==> UserGrants[i].resource in UserWords && UserGrants[i].action in UserWords
  {
  }

  lemma UserColonFree()
    ensures E.ColonFree(UserGrants)
  {
    UserWordsColonFree();
    UserGrantsInWords();
    E.FromWords(UserGrants, UserWords);
  }

  /** False without a user or role and for unknown roles, true for admin,
      otherwise exact membership of the grant in this library's table. */
  lemma HasPermissionSpec(user: Option<Record>, resource: string, action: string)
    ensures user.None? || !Truthy(user.value, "role") ==> !HasPermission(user, resource, action)
    ensures user.Some? && Get(user.value, "role") == Some("admin") ==> HasPermission(user, resource, action)
    ensures user.Some? && Truthy(user.value, "role") && Get(user.value, "role") != Some("admin") ==>
              (HasPermission(user, resource, action) <==> E.Grant(resource, action) in GrantsOf(Get(user.value, "role")))
  {
    ManagerColonFree();
    UserColonFree();
    if user.Some? && Get(user.value, "role") != Some("admin") {
      var gs := GrantsOf(Get(user.value, "role"));
      E.NoWildcard(gs);
      E.TextsMember(gs, resource, action);
    }
  }

  /** The two `hasPermission`s agree, with arguments swapped, except for a
      manager on `expense:update` (ledger only), `expense:reject` and
      `file:export_own` (here only), and a user on `template:download`
      (ledger only). */
  lemma PermissionsCompared(user: Record, resource: string, action: string)
    ensures var role := Get(user, "role");
            var differ := E.HasPermission(Some(user), action, resource) != HasPermission(Some(user), resource, action);
            (role == Some("manager") ==>
               (differ <==> E.Grant(resource, action) in [E.Grant("expense", "update"), E.Grant("expense", "reject"), E.Grant("file", "export_own")]))
            && (role == Some("user") ==> (differ <==> E.Grant(resource, action) == E.Grant("template", "download")))
            && (role != Some("manager") && role != Some("user") ==> !differ)
  {
    E.HasPermissionSpec(Some(user), action, resource);
    HasPermissionSpec(Some(user), resource, action);
    ManagerTablesDiffer(E.Grant(resource, action));
    UserTablesDiffer(E.Grant(resource, action));
  }

  lemma ManagerTablesDiffer(g: E.Grant)
    ensures (g in E.ManagerGrants) != (g in ManagerGrants)
            <==> g in [E.Grant("expense", "update"), E.Grant("expense", "reject"), E.Grant("file", "export_own")]
  {
  }

  lemma UserTablesDiffer(g: E.Grant)
    ensures (g in E.UserGrants) != (g in UserGrants) <==> g == E.Grant("template", "download")
  {
  }

  /** A manager may reject here, but the ledger's table grants only approve. */
  lemma ManagerRejects(user: Record)
    requires Get(user, "role") == Some("manager")
    ensures HasPermission(Some(user), "expense", "reject")
    ensures !E.HasPermission(Some(user), "reject", "expense")
    ensures E.HasPermission(Some(user), "approve", "expense")
  {
    PermissionsCompared(user, "expense", "reject");
    PermissionsCompared(user, "expense", "approve");
    HasPermissionSpec(Some(user), "expense", "reject");
    E.HasPermissionSpec(Some(user), "approve", "expense");
  }

  // ------------------------------------------------------------ filters

  /** `filterAuditLogs`' filters; the empty string is unset. */
  datatype LogFilters = LogFilters(user: string, category: string, resource: string, action: string,
                                   dateFrom: Option<int>, dateTo: Option<int>, search: string)

  /** A log survives `filterAuditLogs`: each set filter matches exactly
      (`'all'` included), and a set search occurs, ignoring case, in the
      resource id, the user name or the action. */
  predicate KeepsLog(log: E.AuditEntry, f: LogFilters)
  {
    (f.user == "" || log.userId == Some(f.user))
    && (f.category == "" || log.category == f.category)
    && (f.resource == "" || log.resource == f.resource)
    && (f.action == "" || log.action == f.action)
    && E.OnOrAfter(log.timestamp, f.dateFrom)
    && E.OnOrBefore(log.timestamp, f.dateTo)
    && (f.search == "" || E.AuditTextHit(log, Lower(f.search)))
  }

  /** `filterAuditLogs`: the logs that pass, in their order. */
  function FilterAuditLogs(logs: seq<E.AuditEntry>, f: LogFilters): (r: seq<E.AuditEntry>)
    ensures IsSubsequence(r, logs)
    ensures forall log :: log in r <==> log in logs && KeepsLog(log, f)
    ensures forall log :: multiset(r)[log] == if KeepsLog(log, f) then multiset(logs)[log] else 0
  {
    Filter(logs, log => KeepsLog(log, f))
  }

  /** With every filter unset the log comes back whole. */
  lemma FilterAuditLogsUnset(logs: seq<E.AuditEntry>)
    ensures FilterAuditLogs(logs, LogFilters("", "", "", "", None, None, "")) == logs
  {
    FilterAll(logs, log => KeepsLog(log, LogFilters("", "", "", "", None, None, "")));
  }

  /** The search ignores the case of the search text. */
  lemma FilterAuditLogsIgnoresCase(logs: seq<E.AuditEntry>, f: LogFilters)
    ensures FilterAuditLogs(logs, f) == FilterAuditLogs(logs, f.(search := Lower(f.search)))
  {
    var g := f.(search := Lower(f.search));
    LowerIdempotent(f.search);
    assert FilterAuditLogs(logs, g) == Filter(logs, log => KeepsLog(log, g));
    FilterThen(logs, log => KeepsLog(log, f), log => true, log => KeepsLog(log, g), false);
  }

  /** Unlike `searchAuditLogs`, `'all'` is an ordinary value here: a user
      filter of `'all'` keeps only logs whose user id is `'all'`. */
  lemma AllIsLiteral(logs: seq<E.AuditEntry>, f: LogFilters, log: E.AuditEntry)
    requires f.user == "all"
    requires log in FilterAuditLogs(logs, f)
    ensures log.userId == Some("all")
  {
  }

  /** Without `'all'` values and an action filter, `filterAuditLogs` keeps
      the same logs as `searchAuditLogs` searching for the same text. */
  lemma FilterMatchesSearch(logs: seq<E.AuditEntry>, f: LogFilters)
    requires f.action == "" && f.user != "all" && f.category != "all" && f.resource != "all"
    ensures FilterAuditLogs(logs, f)
            == Filter(logs, log => E.MatchesAuditSearch(log, f.search, E.AuditFilters(f.user, f.category, f.resource, f.dateFrom, f.dateTo)))
  {
    var g := E.AuditFilters(f.user, f.category, f.resource, f.dateFrom, f.dateTo);
    FilterThen(logs, log => KeepsLog(log, f), log => true, log => E.MatchesAuditSearch(log, f.search, g), false);
  }

  /** `filterFileLogs`' filters; the empty string is unset. */
  datatype FileLogFilters = FileLogFilters(user: string, fileType: string, status: string, action: string, search: string)

  predicate KeepsFileLog(log: E.FileLog, f: FileLogFilters)
  {
    (f.user == "" || log.uploadedBy == Some(f.user))
    && (f.fileType == "" || log.fileType == Some(f.fileType))
    && (f.status == "" || log.status == f.status)
    && (f.action == "" || log.action == f.action)
    && (f.search == "" || (log.fileName.Some? && Contains(Lower(log.fileName.value), Lower(f.search))))
  }

  /** `filterFileLogs`: the file logs that pass, in their order. */
  function FilterFileLogs(logs: seq<E.FileLog>, f: FileLogFilters): (r: seq<E.FileLog>)
    ensures IsSubsequence(r, logs)
    ensures forall log :: log in r <==> log in logs && KeepsFileLog(log, f)
    ensures forall log :: multiset(r)[log] == if KeepsFileLog(log, f) then multiset(logs)[log] else 0
  {
    Filter(logs, log => KeepsFileLog(log, f))
  }

  lemma FilterFileLogsUnset(logs: seq<E.FileLog>)
    ensures FilterFileLogs(logs, FileLogFilters("", "", "", "", "")) == logs
  {
    FilterAll(logs, log => KeepsFileLog(log, FileLogFilters("", "", "", "", "")));
  }

  lemma FilterFileLogsIgnoresCase(logs: seq<E.FileLog>, f: FileLogFilters)
    ensures FilterFileLogs(logs, f) == FilterFileLogs(logs, f.(search := Lower(f.search)))
  {
    var g := f.(search := Lower(f.search));
    LowerIdempotent(f.search);
    assert FilterFileLogs(logs, g) == Filter(logs, log => KeepsFileLog(log, g));
    FilterThen(logs, log => KeepsFileLog(log, f), log => true, log => KeepsFileLog(log, g), false);
  }

  // ------------------------------------------------------------ CSV export

  const CsvHeaders: seq<string> := ["Timestamp", "User", "Role", "Action", "Resource", "Resource ID", "Changes", "Status"]

  /** `log.success ? 'Success' : 'Failed'` */
  function Status(log: E.AuditEntry): string
  {
    if log.success then "Success" else "Failed"
  }

  function ChangesCell(changes: seq<E.FieldChange>): string
  {
    Join(seq(|changes|, i requires 0 <= i < |changes| => E.ChangeText(changes[i])), "; ")
  }

  /** The eight cells of a log, the time rendered by `showTime`. */
  function Cells(log: E.AuditEntry, showTime: E.Moment -> string): (cells: seq<string>)
    ensures |cells| == |CsvHeaders|
  {
    [showTime(log.timestamp), Show(log.userName), Show(log.userRole), log.action, log.resource,
     if log.resourceId.Some? then log.resourceId.value else "",
     ChangesCell(log.changes), Status(log)]
  }

  function Quote(cell: string): string
  {
    "\"" + cell + "\""
  }

  function Row(log: E.AuditEntry, showTime: E.Moment -> string): string
  {
    var cells := Cells(log, showTime);
    Join(seq(|cells|, i requires 0 <= i < |cells| => Quote(cells[i])), ",")
  }

  function CsvLines(logs: seq<E.AuditEntry>, showTime: E.Moment -> string): (lines: seq<string>)
    ensures |lines| == |logs| + 1
  {
    [Join(CsvHeaders, ",")] + seq(|logs|, i requires 0 <= i < |logs| => Row(logs[i], showTime))
  }

  /** `exportAuditLogToCSV`, with the locale rendering of the timestamp
      supplied by the caller. */
  function ExportAuditLogToCSV(logs: seq<E.AuditEntry>, showTime: E.Moment -> string): string
  {
    Join(CsvLines(logs, showTime), "\n")
  }

  /** No cell of any log holds a line break. */
  predicate SingleLineCells(logs: seq<E.AuditEntry>, showTime: E.Moment -> string)
  {
    forall i, j :: 0 <= i < |logs| && 0 <= j < |CsvHeaders| ==> '\n' !in Cells(logs[i], showTime)[j]
  }

  lemma {:induction false} JoinNoBreak(parts: seq<string>, sep: string)
    requires '\n' !in sep
    requires forall i :: 0 <= i < |parts| ==> '\n' !in parts[i]
    ensures '\n' !in Join(parts, sep)
    decreases |parts|
  {
    if |parts| > 1 {
      JoinNoBreak(parts[1..], sep);
    }
  }

  lemma RowNoBreak(log: E.AuditEntry, showTime: E.Moment -> string)
    requires forall j :: 0 <= j < |CsvHeaders| ==> '\n' !in Cells(log, showTime)[j]
    ensures '\n' !in Row(log, showTime)
  {
    var cells := Cells(log, showTime);
    var quoted := seq(|cells|, i requires 0 <= i < |cells| => Quote(cells[i]));
    forall i | 0 <= i < |quoted| ensures '\n' !in quoted[i] {
      assert quoted[i] == "\"" + cells[i] + "\"";
    }
    JoinNoBreak(quoted, ",");
  }

  /** The export has one header line and then one line per log, in order,
      as long as no cell holds a line break. */
  lemma ExportLines(logs: seq<E.AuditEntry>, showTime: E.Moment -> string)
    requires SingleLineCells(logs, showTime)
    ensures Split(ExportAuditLogToCSV(logs, showTime), '\n') == CsvLines(logs, showTime)
    ensures |Split(ExportAuditLogToCSV(logs, showTime), '\n')| == |logs| + 1
    ensures Split(ExportAuditLogToCSV(logs, showTime), '\n')[0] == Join(CsvHeaders, ",")
    ensures forall i :: 0 <= i < |logs| ==> Split(ExportAuditLogToCSV(logs, showTime), '\n')[i + 1] == Row(logs[i], showTime)
  {
    var lines := CsvLines(logs, showTime);
    HeaderNoBreak();
    RowsNoBreak(logs, showTime);
    assert forall i :: 0 <= i < |lines| ==> '\n' !in lines[i] by {
      forall i | 0 <= i < |lines| ensures '\n' !in lines[i] {
        if i > 0 {
          assert lines[i] == Row(logs[i - 1], showTime);
        }
      }
    }
    SplitJoin(lines, '\n');
  }

  lemma RowsNoBreak(logs: seq<E.AuditEntry>, showTime: E.Moment -> string)
    requires SingleLineCells(logs, showTime)
    ensures forall i :: 0 <= i < |logs| ==> '\n' !in Row(logs[i], showTime)
  {
    forall i | 0 <= i < |logs| ensures '\n' !in Row(logs[i], showTime) {
      RowNoBreak(logs[i], showTime);
    }
  }

  lemma HeaderNoBreak()
    ensures '\n' !in Join(CsvHeaders, ",")
  {
    forall i | 0 <= i < |CsvHeaders| ensures '\n' !in CsvHeaders[i] {
    }
    JoinNoBreak(CsvHeaders, ",");
  }

  /** A row is the quoted time cell, a comma, and the rest, ending with the
      quoted status `Success` or `Failed`. */
  lemma RowShape(log: E.AuditEntry, showTime: E.Moment -> string)
    ensures var row := Row(log, showTime);
            var first := Quote(showTime(log.timestamp)) + ",";
            var last := "," + Quote(Status(log));
            |row| >= |first| + |last| && row[..|first|] == first && row[|row| - |last|..] == last
    ensures Status(log) == "Success" <==> log.success
  {
    var cells := Cells(log, showTime);
    var q := seq(|cells|, i requires 0 <= i < |cells| => Quote(cells[i]));
    var middle := Join(q[1..7], ",");
    assert Join(q, ",") == q[0] + "," + (middle + "," + q[7]) by {
      assert q[1..] == q[1..][..6] + [q[7]];
      JoinLast(q[1..], ",");
      assert q[1..][..6] == q[1..7];
    }
  }

  /** Joining on a last element. */
  lemma {:induction false} JoinLast(parts: seq<string>, sep: string)
    requires |parts| >= 2
    ensures Join(parts, sep) == Join(parts[..|parts| - 1], sep) + sep + parts[|parts| - 1]
    decreases |parts|
  {
    if |parts| > 2 {
      JoinLast(parts[1..], sep);
      assert parts[1..][..|parts| - 2] == parts[..|parts| - 1][1..];
    }
  }

  // ------------------------------------------------------------ labels

  const ActionLabels: map<string, string> := map[
    "login" := "\U{1F510} User Login",
    "logout" := "\U{1F6AA} User Logout",
    "expense_created" := "\U{2795} Expense Created",
    "expense_approved" := "\U{2705} Expense Approved",
    "expense_rejected" := "\U{274C} Expense Rejected",
    "vendor_created" := "\U{1F3E2} Vendor Added",
    "vendor_updated" := "\U{1F4DD} Vendor Updated",
    "employee_created" := "\U{1F464} Employee Added",
    "employee_updated" := "\U{1F4DD} Employee Updated",
    "file_uploaded" := "\U{1F4E4} File Uploaded",
    "file_downloaded" := "\U{1F4E5} File Downloaded",
    "permission_denied" := "\U{1F6AB} Permission Denied"]

  /** A log prepared for display: the log and its action label. */
  datatype FormattedLog = FormattedLog(log: E.AuditEntry, actionLabel: string)

  /** `formatAuditLog`: the table's label, or else the action text itself. */
  function FormatAuditLog(log: E.AuditEntry): (r: FormattedLog)
    ensures r.log == log
    ensures log.action in ActionLabels ==> r.actionLabel == ActionLabels[log.action]
    ensures log.action !in ActionLabels ==> r.actionLabel == log.action
  {
    FormattedLog(log, if log.action in ActionLabels && ActionLabels[log.action] != "" then ActionLabels[log.action] else log.action)
  }

  /** Every table label is non-empty, so `||` never falls back for a listed action. */
  lemma LabelsNonEmpty(action: string)
    requires action in ActionLabels
    ensures ActionLabels[action] != ""
  {
  }
}
