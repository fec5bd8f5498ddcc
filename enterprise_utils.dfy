/** The audit ledger, its searches and the role-based permission table of
    the back office (`src/utils/enterpriseUtils.js`). */
module EnterpriseUtils {
  import opened Js

  // ------------------------------------------------------------ entities

  /** An instant supplied by the caller: milliseconds since the epoch and
      its ISO-8601 rendering. */
  datatype Moment = Moment(millis: int, iso: string)

  /** One changed field: `${key}: ${before} → ${after}`. */
  datatype FieldChange = FieldChange(key: string, before: Option<string>, after: Option<string>)

  function ChangeText(c: FieldChange): (t: string)
    ensures |t| > |c.key|
    ensures t[..|c.key|] == c.key
  {
    c.key + ": " + Show(c.before) + " → " + Show(c.after)
  }

  /** An audit-log entry. `before`/`after` are `None` for `null`. */
  datatype AuditEntry = AuditEntry(
    logId: string,
    timestamp: Moment,
    userId: Option<string>,
    userName: Option<string>,
    userRole: Option<string>,
    action: string,
    category: string,
    resource: string,
    resourceId: Option<string>,
    before: Option<Record>,
    after: Option<Record>,
    changes: seq<FieldChange>,
    success: bool,
    errorMessage: Option<string>,
    ipAddress: Option<string>,
    metadata: Record)

  /** A file-operation log entry, with the fields the searches read. */
  datatype FileLog = FileLog(
    fileId: string,
    fileName: Option<string>,
    fileType: Option<string>,
    uploadedBy: Option<string>,
    uploadedByName: Option<string>,
    uploadedDate: Moment,
    action: string,
    status: string)

  // ------------------------------------------------------------ categories

  /** `getCategoryFromAction`: the first verb group the action mentions,
      in the order auth, file, approval, data. */
  function Category(action: string): (c: string)
    ensures c in {"auth", "file", "approval", "data", "system"}
  {
    if Contains(action, "login") || Contains(action, "logout") then "auth"
    else if Contains(action, "file") || Contains(action, "upload") || Contains(action, "download") then "file"
    else if Contains(action, "approved") || Contains(action, "rejected") then "approval"
    else if Contains(action, "created") || Contains(action, "updated") || Contains(action, "deleted") then "data"
    else "system"
  }

  predicate MentionsAuth(a: string) { Contains(a, "login") || Contains(a, "logout") }
  predicate MentionsFile(a: string) { Contains(a, "file") || Contains(a, "upload") || Contains(a, "download") }
  predicate MentionsDecision(a: string) { Contains(a, "approved") || Contains(a, "rejected") }
  predicate MentionsData(a: string) { Contains(a, "created") || Contains(a, "updated") || Contains(a, "deleted") }

  /** Precedence auth > file > approval > data > system: each category is
      chosen exactly when its verbs occur and no earlier group's do. */
  lemma CategoryPrecedence(a: string)
    ensures Category(a) == "auth" <==> MentionsAuth(a)
    ensures Category(a) == "file" <==> !MentionsAuth(a) && MentionsFile(a)
    ensures Category(a) == "approval" <==> !MentionsAuth(a) && !MentionsFile(a) && MentionsDecision(a)
    ensures Category(a) == "data" <==> !MentionsAuth(a) && !MentionsFile(a) && !MentionsDecision(a) && MentionsData(a)
    ensures Category(a) == "system" <==> !MentionsAuth(a) && !MentionsFile(a) && !MentionsDecision(a) && !MentionsData(a)
  {
  }

  /** `expense_approved` is an approval and `permission_denied` is a system event. */
  lemma CategoryExamples(approved: string, denied: string)
    requires approved == "expense_approved" && denied == "permission_denied"
    ensures Category(approved) == "approval"
    ensures Category(denied) == "system"
  {
    ExpenseApprovedVerbs(approved);
    PermissionDeniedVerbs(denied);
  }

  lemma ExpenseApprovedVerbs(a: string)
    requires a == "expense_approved"
    ensures !MentionsAuth(a) && !MentionsFile(a) && MentionsDecision(a)
  {
    ExpenseApprovedLetters(a);
    Absent(a, "login", 'l'); Absent(a, "logout", 'l');
    Absent(a, "file", 'f'); Absent(a, "upload", 'u'); Absent(a, "download", 'w');
    ExpenseApprovedDecision(a);
  }

  lemma ExpenseApprovedLetters(a: string)
    requires a == "expense_approved"
    ensures 'l' !in a && 'f' !in a && 'u' !in a && 'w' !in a
  {
  }

  lemma ExpenseApprovedDecision(a: string)
    requires a == "expense_approved"
    ensures Contains(a, "approved")
  {
    assert a[8..16] == "approved";
    assert OccursAt(a, "approved", 8);
    ContainsIff(a, "approved");
  }

  lemma PermissionDeniedVerbs(p: string)
    requires p == "permission_denied"
    ensures !MentionsAuth(p) && !MentionsFile(p) && !MentionsDecision(p) && !MentionsData(p)
  {
    PermissionDeniedLetters(p);
    Absent(p, "login", 'l'); Absent(p, "logout", 'l');
    Absent(p, "file", 'f'); Absent(p, "upload", 'u'); Absent(p, "download", 'w');
    Absent(p, "approved", 'a'); Absent(p, "rejected", 'j');
    Absent(p, "created", 'c'); Absent(p, "updated", 'u'); Absent(p, "deleted", 'l');
  }

  lemma PermissionDeniedLetters(p: string)
    requires p == "permission_denied"
    ensures 'l' !in p && 'f' !in p && 'u' !in p && 'w' !in p && 'a' !in p && 'j' !in p && 'c' !in p
  {
    var letters := {'p', 'e', 'r', 'm', 'i', 's', 'o', 'n', '_', 'd'};
    PermissionDeniedChars(p);
    OnlyFrom(p, letters, 'l'); OnlyFrom(p, letters, 'f'); OnlyFrom(p, letters, 'u'); OnlyFrom(p, letters, 'w');
    OnlyFrom(p, letters, 'a'); OnlyFrom(p, letters, 'j'); OnlyFrom(p, letters, 'c');
  }

  lemma PermissionDeniedChars(p: string)
    requires p == "permission_denied"
    ensures forall k :: 0 <= k < |p| ==> p[k] in {'p', 'e', 'r', 'm', 'i', 's', 'o', 'n', '_', 'd'}
  {
  }

  /** A text drawn from a set of characters holds none outside it. */
  lemma OnlyFrom(p: string, letters: set<char>, c: char)
    requires forall k :: 0 <= k < |p| ==> p[k] in letters
    requires c !in letters
    ensures c !in p
  {
  }

  // ------------------------------------------------------------ changes

  function Change(before: Record, after: Record, key: string): FieldChange
  {
    FieldChange(key, Get(before, key), Get(after, key))
  }

  predicate Differs(before: Record, after: Record, key: string)
  {
    Get(before, key) != Get(after, key)
  }

  function KeysOf(changes: seq<FieldChange>): set<string>
  {
    set i | 0 <= i < |changes| :: changes[i].key
  }

  /** The keys of either record whose values differ. */
  function ChangedKeys(before: Record, after: Record): set<string>
  {
    set k | k in before.Keys + after.Keys && Differs(before, after, k)
  }

  predicate DistinctKeys(changes: seq<FieldChange>)
  {
    forall i, j :: 0 <= i < j < |changes| ==> changes[i].key != changes[j].key
  }

  /** What `calculateChanges(before, after)` returns: nothing when either side
      is `null`; otherwise one correct entry for each key in the union whose
      values differ, and no other. The order follows the key enumeration. */
  predicate DescribesChanges(changes: seq<FieldChange>, before: Option<Record>, after: Option<Record>)
  {
    if before.None? || after.None? then changes == []
    else
      KeysOf(changes) == ChangedKeys(before.value, after.value)
      && DistinctKeys(changes)
      && forall i :: 0 <= i < |changes| ==> changes[i] == Change(before.value, after.value, changes[i].key)
  }

  /** `calculateChanges`: walks the union of the two key sets, recording each
      key whose values differ. */
  method CalculateChanges(before: Option<Record>, after: Option<Record>) returns (changes: seq<FieldChange>)
    ensures DescribesChanges(changes, before, after)
  {
    if before.None? || after.None? {
      return [];
    }
    var b, a := before.value, after.value;
    var keys := b.Keys + a.Keys;
    ghost var done: set<string> := {};
    changes := [];
    while keys != {}
      invariant keys + done == b.Keys + a.Keys && keys !! done
      invariant KeysOf(changes) == set k | k in done && Differs(b, a, k)
      invariant DistinctKeys(changes)
      invariant forall i :: 0 <= i < |changes| ==> changes[i] == Change(b, a, changes[i].key)
      invariant forall i :: 0 <= i < |changes| ==> changes[i].key in done
      decreases keys
    {
      var k :| k in keys;
      if Get(b, k) != Get(a, k) {
        KeysOfAppend(changes, FieldChange(k, Get(b, k), Get(a, k)));
        changes := changes + [FieldChange(k, Get(b, k), Get(a, k))];
      }
      keys := keys - {k};
      done := done + {k};
    }
  }

  lemma KeysOfAppend(cs: seq<FieldChange>, c: FieldChange)
    ensures KeysOf(cs + [c]) == KeysOf(cs) + {c.key}
  {
    var s := cs + [c];
    forall x | x in KeysOf(s) ensures x in KeysOf(cs) + {c.key} {
      var i :| 0 <= i < |s| && s[i].key == x;
      if i < |cs| {
        assert cs[i].key == x;
      }
    }
    forall x | x in KeysOf(cs) ensures x in KeysOf(s) {
      var i :| 0 <= i < |cs| && cs[i].key == x;
      assert s[i].key == x;
    }
    assert s[|cs|].key == c.key;
  }

  /** Identical records produce no change entries. */
  lemma NoChangesForIdentical(changes: seq<FieldChange>, r: Record)
    requires DescribesChanges(changes, Some(r), Some(r))
    ensures changes == []
  {
    ChangeCount(changes, r, r);
    assert ChangedKeys(r, r) == {};
  }

  /** One entry per differing key: the entries are as many as those keys. */
  lemma {:induction false} ChangeCount(changes: seq<FieldChange>, before: Record, after: Record)
    requires DescribesChanges(changes, Some(before), Some(after))
    ensures |changes| == |ChangedKeys(before, after)|
  {
    DistinctKeysCount(changes);
  }

  lemma {:induction false} DistinctKeysCount(changes: seq<FieldChange>)
    requires DistinctKeys(changes)
    ensures |KeysOf(changes)| == |changes|
    decreases |changes|
  {
    if |changes| > 0 {
      var init, last := changes[..|changes| - 1], changes[|changes| - 1];
      assert changes == init + [last];
      assert DistinctKeys(init);
      DistinctKeysCount(init);
      KeysOfAppend(init, last);
      assert last.key !in KeysOf(init);
    }
  }

  // ------------------------------------------------------------ the ledger

  /** The entry `logAudit` builds from its arguments. */
  predicate LoggedAs(e: AuditEntry, action: string, resource: string, resourceId: Option<string>,
                     before: Option<Record>, after: Option<Record>, user: Record,
                     success: bool, errorMessage: Option<string>, now: Moment, logId: string)
  {
    e.logId == logId && e.timestamp == now
    && e.userId == Get(user, "username") && e.userName == Get(user, "name") && e.userRole == Get(user, "role")
    && e.action == action && e.category == Category(action)
    && e.resource == resource && e.resourceId == resourceId
    && e.before == before && e.after == after
    && DescribesChanges(e.changes, before, after)
    && e.success == success && e.errorMessage == errorMessage
    && e.ipAddress == Some("localhost") && e.metadata == map[]
  }

  /** The shared, newest-first audit log. */
  class AuditTrail {
    var entries: seq<AuditEntry>

    constructor(initial: seq<AuditEntry>)
      ensures entries == initial
    {
      entries := initial;
    }

    /** `logAudit`: builds the entry and puts it in front of the log. */
    method LogAudit(action: string, resource: string, resourceId: Option<string>,
                    before: Option<Record>, after: Option<Record>, user: Record,
                    success: bool, errorMessage: Option<string>, now: Moment, logId: string)
      returns (entry: AuditEntry)
      modifies this
      ensures entries == [entry] + old(entries)
      ensures Prepended(entries, old(entries)) && entries[0] == entry
      ensures LoggedAs(entry, action, resource, resourceId, before, after, user, success, errorMessage, now, logId)
    {
      var changes := CalculateChanges(before, after);
      entry := AuditEntry(logId, now, Get(user, "username"), Get(user, "name"), Get(user, "role"),
                          action, Category(action), resource, resourceId, before, after, changes,
                          success, errorMessage, Some("localhost"), map[]);
      entries := [entry] + entries;
    }
  }

  /** The log grew by exactly one entry in front; the old entries follow in order. */
  predicate Prepended(log: seq<AuditEntry>, before: seq<AuditEntry>)
  {
    |log| == |before| + 1 && log[1..] == before
  }

  const InsufficientPermissions := "Insufficient permissions"

  /** The entry the data hooks write when `requirePermission(user, verb, resource)`
      refuses: a failed `permission_denied` event whose `after` names the verb. */
  predicate DeniedEntry(e: AuditEntry, resource: string, resourceId: Option<string>, verb: string,
                        user: Record, now: Moment, logId: string)
  {
    LoggedAs(e, "permission_denied", resource, resourceId, None, Some(map["action" := verb]),
             user, false, Some(InsufficientPermissions), now, logId)
  }

  /** A refusal is recorded as a failed system event with no field changes. */
  lemma DeniedEntryShape(e: AuditEntry, resource: string, resourceId: Option<string>, verb: string,
                         user: Record, now: Moment, logId: string)
    requires DeniedEntry(e, resource, resourceId, verb, user, now, logId)
    ensures !e.success && e.errorMessage == Some(InsufficientPermissions)
    ensures e.category == "system" && e.changes == [] && e.before.None?
    ensures e.after == Some(map["action" := verb])
  {
    CategoryExamples("expense_approved", "permission_denied");
  }

  /** The `{ success, message?, <record>? }` objects the data hooks return. */
  datatype Outcome = Outcome(success: bool, message: Option<string>, record: Option<Record>)

  function Failed(message: string): Outcome
  {
    Outcome(false, Some(message), None)
  }

  // ------------------------------------------------------------ searching

  /** A text filter is applied unless it is empty or `'all'`. */
  predicate Active(value: string)
  {
    value != "" && value != "all"
  }

  datatype AuditFilters = AuditFilters(user: string, category: string, resource: string,
                                       dateFrom: Option<int>, dateTo: Option<int>)

  /** The search term, already lowered, occurs in the user name, the action
      or the resource id. */
  predicate AuditTextHit(log: AuditEntry, term: string)
  {
    (log.userName.Some? && Contains(Lower(log.userName.value), term))
    || Contains(Lower(log.action), term)
    || (log.resourceId.Some? && Contains(Lower(log.resourceId.value), term))
  }

  /** The instant is on or after `from`, when a bound is given. */
  predicate OnOrAfter(t: Moment, from: Option<int>)
  {
    from.None? || t.millis >= from.value
  }

  /** The instant is on or before `to`, when a bound is given. */
  predicate OnOrBefore(t: Moment, to: Option<int>)
  {
    to.None? || t.millis <= to.value
  }

  /** The first `k` tests of `searchAuditLogs`, each holding where applied. */
  predicate AuditStage(log: AuditEntry, term: string, f: AuditFilters, k: nat)
  {
    (k <= 0 || term == "" || AuditTextHit(log, Lower(term)))
    && (k <= 1 || !Active(f.user) || log.userId == Some(f.user))
    && (k <= 2 || !Active(f.category) || log.category == f.category)
    && (k <= 3 || !Active(f.resource) || log.resource == f.resource)
    && (k <= 4 || OnOrAfter(log.timestamp, f.dateFrom))
    && (k <= 5 || OnOrBefore(log.timestamp, f.dateTo))
  }

  /** A log passes the search: every applied test holds. */
  predicate MatchesAuditSearch(log: AuditEntry, term: string, f: AuditFilters)
  {
    AuditStage(log, term, f, 6)
  }

  // Each narrowing step of `searchAuditLogs` takes the logs passing the
  // first k tests to those passing the first k + 1.

  lemma AuditStep0(logs: seq<AuditEntry>, term: string, f: AuditFilters)
    ensures logs == Filter(logs, log => AuditStage(log, term, f, 0))
  {
    FilterAll(logs, log => AuditStage(log, term, f, 0));
  }

  lemma AuditStep1(logs: seq<AuditEntry>, term: string, f: AuditFilters)
    ensures (if term != "" then Filter(Filter(logs, log => AuditStage(log, term, f, 0)), log => AuditTextHit(log, Lower(term)))
             else Filter(logs, log => AuditStage(log, term, f, 0)))
            == Filter(logs, log => AuditStage(log, term, f, 1))
  {
    FilterThen(logs, log => AuditStage(log, term, f, 0), log => AuditTextHit(log, Lower(term)),
               log => AuditStage(log, term, f, 1), term != "");
  }

  lemma AuditStep2(logs: seq<AuditEntry>, term: string, f: AuditFilters)
    ensures (if Active(f.user) then Filter(Filter(logs, log => AuditStage(log, term, f, 1)), (log: AuditEntry) => log.userId == Some(f.user))
             else Filter(logs, log => AuditStage(log, term, f, 1)))
            == Filter(logs, log => AuditStage(log, term, f, 2))
  {
    FilterThen(logs, log => AuditStage(log, term, f, 1), (log: AuditEntry) => log.userId == Some(f.user),
               log => AuditStage(log, term, f, 2), Active(f.user));
  }

  lemma AuditStep3(logs: seq<AuditEntry>, term: string, f: AuditFilters)
    ensures (if Active(f.category) then Filter(Filter(logs, log => AuditStage(log, term, f, 2)), (log: AuditEntry) => log.category == f.category)
             else Filter(logs, log => AuditStage(log, term, f, 2)))
            == Filter(logs, log => AuditStage(log, term, f, 3))
  {
    FilterThen(logs, log => AuditStage(log, term, f, 2), (log: AuditEntry) => log.category == f.category,
               log => AuditStage(log, term, f, 3), Active(f.category));
  }

  lemma AuditStep4(logs: seq<AuditEntry>, term: string, f: AuditFilters)
    ensures (if Active(f.resource) then Filter(Filter(logs, log => AuditStage(log, term, f, 3)), (log: AuditEntry) => log.resource == f.resource)
             else Filter(logs, log => AuditStage(log, term, f, 3)))
            == Filter(logs, log => AuditStage(log, term, f, 4))
  {
    FilterThen(logs, log => AuditStage(log, term, f, 3), (log: AuditEntry) => log.resource == f.resource,
               log => AuditStage(log, term, f, 4), Active(f.resource));
  }

  lemma AuditStep5(logs: seq<AuditEntry>, term: string, f: AuditFilters)
    ensures (if f.dateFrom.Some? then Filter(Filter(logs, log => AuditStage(log, term, f, 4)), (log: AuditEntry) => OnOrAfter(log.timestamp, f.dateFrom))
             else Filter(logs, log => AuditStage(log, term, f, 4)))
            == Filter(logs, log => AuditStage(log, term, f, 5))
  {
    FilterThen(logs, log => AuditStage(log, term, f, 4), (log: AuditEntry) => OnOrAfter(log.timestamp, f.dateFrom),
               log => AuditStage(log, term, f, 5), f.dateFrom.Some?);
  }

  lemma AuditStep6(logs: seq<AuditEntry>, term: string, f: AuditFilters)
    ensures (if f.dateTo.Some? then Filter(Filter(logs, log => AuditStage(log, term, f, 5)), (log: AuditEntry) => OnOrBefore(log.timestamp, f.dateTo))
             else Filter(logs, log => AuditStage(log, term, f, 5)))
            == Filter(logs, log => MatchesAuditSearch(log, term, f))
  {
    FilterThen(logs, log => AuditStage(log, term, f, 5), (log: AuditEntry) => OnOrBefore(log.timestamp, f.dateTo),
               log => MatchesAuditSearch(log, term, f), f.dateTo.Some?);
  }

  /** `searchAuditLogs`: narrows `filtered` one applied test at a time. A log
      without a user name throws once a search term is given. */
  method SearchAuditLogs(logs: seq<AuditEntry>, term: string, f: AuditFilters) returns (filtered: seq<AuditEntry>)
    requires term != "" ==> forall i :: 0 <= i < |logs| ==> logs[i].userName.Some?
    ensures filtered == Filter(logs, log => MatchesAuditSearch(log, term, f))
  {
    AuditStep0(logs, term, f);
    filtered := logs;
    AuditStep1(logs, term, f);
    if term != "" {
      filtered := Filter(filtered, log => AuditTextHit(log, Lower(term)));
    }
    AuditStep2(logs, term, f);
    if Active(f.user) {
      filtered := Filter(filtered, (log: AuditEntry) => log.userId == Some(f.user));
    }
    AuditStep3(logs, term, f);
    if Active(f.category) {
      filtered := Filter(filtered, (log: AuditEntry) => log.category == f.category);
    }
    AuditStep4(logs, term, f);
    if Active(f.resource) {
      filtered := Filter(filtered, (log: AuditEntry) => log.resource == f.resource);
    }
    AuditStep5(logs, term, f);
    if f.dateFrom.Some? {
      filtered := Filter(filtered, (log: AuditEntry) => OnOrAfter(log.timestamp, f.dateFrom));
    }
    AuditStep6(logs, term, f);
    if f.dateTo.Some? {
      filtered := Filter(filtered, (log: AuditEntry) => OnOrBefore(log.timestamp, f.dateTo));
    }
  }

  /** The search keeps the order of the log, and a log is kept exactly when
      it is in the log and every applied test holds for it. */
  lemma AuditSearchSound(logs: seq<AuditEntry>, term: string, f: AuditFilters, log: AuditEntry)
    ensures IsSubsequence(Filter(logs, l => MatchesAuditSearch(l, term, f)), logs)
    ensures log in Filter(logs, l => MatchesAuditSearch(l, term, f)) <==>
            log in logs
            && (term == "" || AuditTextHit(log, Lower(term)))
            && (!Active(f.user) || log.userId == Some(f.user))
            && (!Active(f.category) || log.category == f.category)
            && (!Active(f.resource) || log.resource == f.resource)
            && OnOrAfter(log.timestamp, f.dateFrom) && OnOrBefore(log.timestamp, f.dateTo)
    ensures multiset(Filter(logs, l => MatchesAuditSearch(l, term, f)))[log] ==
            if MatchesAuditSearch(log, term, f) then multiset(logs)[log] else 0
  {
  }

  /** Empty or `'all'` filters and no search term keep the whole log. */
  lemma AuditSearchIdentity(logs: seq<AuditEntry>, f: AuditFilters)
    requires !Active(f.user) && !Active(f.category) && !Active(f.resource)
    requires f.dateFrom.None? && f.dateTo.None?
    ensures Filter(logs, l => MatchesAuditSearch(l, "", f)) == logs
  {
    FilterAll(logs, l => MatchesAuditSearch(l, "", f));
  }

  datatype FileFilters = FileFilters(fileType: string, action: string, status: string,
                                     dateFrom: Option<int>, dateTo: Option<int>)

  /** The lowered search term occurs in the file name or the uploader's name. */
  predicate FileTextHit(log: FileLog, term: string)
  {
    (log.fileName.Some? && Contains(Lower(log.fileName.value), term))
    || (log.uploadedByName.Some? && Contains(Lower(log.uploadedByName.value), term))
  }

  /** The first `k` tests of `searchFiles`, each holding where applied. */
  predicate FileStage(log: FileLog, term: string, f: FileFilters, k: nat)
  {
    (k <= 0 || term == "" || FileTextHit(log, Lower(term)))
    && (k <= 1 || !Active(f.fileType) || log.fileType == Some(f.fileType))
    && (k <= 2 || !Active(f.action) || log.action == f.action)
    && (k <= 3 || !Active(f.status) || log.status == f.status)
    && (k <= 4 || OnOrAfter(log.uploadedDate, f.dateFrom))
    && (k <= 5 || OnOrBefore(log.uploadedDate, f.dateTo))
  }

  predicate MatchesFileSearch(log: FileLog, term: string, f: FileFilters)
  {
    FileStage(log, term, f, 6)
  }

  /** A search term needs a file name on every log, and an uploader name on
      every log whose file name does not match (the source throws otherwise). */
  predicate FileNamesReadable(logs: seq<FileLog>, term: string)
  {
    forall i :: 0 <= i < |logs| ==>
      logs[i].fileName.Some?
      && (!Contains(Lower(logs[i].fileName.value), Lower(term)) ==> logs[i].uploadedByName.Some?)
  }

  // Each narrowing step of `searchFiles` takes the logs passing the first k
  // tests to those passing the first k + 1.

  lemma FileStep0(logs: seq<FileLog>, term: string, f: FileFilters)
    ensures logs == Filter(logs, log => FileStage(log, term, f, 0))
  {
    FilterAll(logs, log => FileStage(log, term, f, 0));
  }

  lemma FileStep1(logs: seq<FileLog>, term: string, f: FileFilters)
    ensures (if term != "" then Filter(Filter(logs, log => FileStage(log, term, f, 0)), log => FileTextHit(log, Lower(term)))
             else Filter(logs, log => FileStage(log, term, f, 0)))
            == Filter(logs, log => FileStage(log, term, f, 1))
  {
    FilterThen(logs, log => FileStage(log, term, f, 0), log => FileTextHit(log, Lower(term)),
               log => FileStage(log, term, f, 1), term != "");
  }

  lemma FileStep2(logs: seq<FileLog>, term: string, f: FileFilters)
    ensures (if Active(f.fileType) then Filter(Filter(logs, log => FileStage(log, term, f, 1)), (log: FileLog) => log.fileType == Some(f.fileType))
             else Filter(logs, log => FileStage(log, term, f, 1)))
            == Filter(logs, log => FileStage(log, term, f, 2))
  {
    FilterThen(logs, log => FileStage(log, term, f, 1), (log: FileLog) => log.fileType == Some(f.fileType),
               log => FileStage(log, term, f, 2), Active(f.fileType));
  }

  lemma FileStep3(logs: seq<FileLog>, term: string, f: FileFilters)
    ensures (if Active(f.action) then Filter(Filter(logs, log => FileStage(log, term, f, 2)), (log: FileLog) => log.action == f.action)
             else Filter(logs, log => FileStage(log, term, f, 2)))
            == Filter(logs, log => FileStage(log, term, f, 3))
  {
    FilterThen(logs, log => FileStage(log, term, f, 2), (log: FileLog) => log.action == f.action,
               log => FileStage(log, term, f, 3), Active(f.action));
  }

  lemma FileStep4(logs: seq<FileLog>, term: string, f: FileFilters)
    ensures (if Active(f.status) then Filter(Filter(logs, log => FileStage(log, term, f, 3)), (log: FileLog) => log.status == f.status)
             else Filter(logs, log => FileStage(log, term, f, 3)))
            == Filter(logs, log => FileStage(log, term, f, 4))
  {
    FilterThen(logs, log => FileStage(log, term, f, 3), (log: FileLog) => log.status == f.status,
               log => FileStage(log, term, f, 4), Active(f.status));
  }

  lemma FileStep5(logs: seq<FileLog>, term: string, f: FileFilters)
    ensures (if f.dateFrom.Some? then Filter(Filter(logs, log => FileStage(log, term, f, 4)), (log: FileLog) => OnOrAfter(log.uploadedDate, f.dateFrom))
             else Filter(logs, log => FileStage(log, term, f, 4)))
            == Filter(logs, log => FileStage(log, term, f, 5))
  {
    FilterThen(logs, log => FileStage(log, term, f, 4), (log: FileLog) => OnOrAfter(log.uploadedDate, f.dateFrom),
               log => FileStage(log, term, f, 5), f.dateFrom.Some?);
  }

  lemma FileStep6(logs: seq<FileLog>, term: string, f: FileFilters)
    ensures (if f.dateTo.Some? then Filter(Filter(logs, log => FileStage(log, term, f, 5)), (log: FileLog) => OnOrBefore(log.uploadedDate, f.dateTo))
             else Filter(logs, log => FileStage(log, term, f, 5)))
            == Filter(logs, log => MatchesFileSearch(log, term, f))
  {
    FilterThen(logs, log => FileStage(log, term, f, 5), (log: FileLog) => OnOrBefore(log.uploadedDate, f.dateTo),
               log => MatchesFileSearch(log, term, f), f.dateTo.Some?);
  }

  /** `searchFiles`: narrows `filtered` one applied test at a time. */
  method SearchFiles(logs: seq<FileLog>, term: string, f: FileFilters) returns (filtered: seq<FileLog>)
    requires term != "" ==> FileNamesReadable(logs, term)
    ensures filtered == Filter(logs, log => MatchesFileSearch(log, term, f))
  {
    FileStep0(logs, term, f);
    filtered := logs;
    FileStep1(logs, term, f);
    if term != "" {
      filtered := Filter(filtered, log => FileTextHit(log, Lower(term)));
    }
    FileStep2(logs, term, f);
    if Active(f.fileType) {
      filtered := Filter(filtered, (log: FileLog) => log.fileType == Some(f.fileType));
    }
    FileStep3(logs, term, f);
    if Active(f.action) {
      filtered := Filter(filtered, (log: FileLog) => log.action == f.action);
    }
    FileStep4(logs, term, f);
    if Active(f.status) {
      filtered := Filter(filtered, (log: FileLog) => log.status == f.status);
    }
    FileStep5(logs, term, f);
    if f.dateFrom.Some? {
      filtered := Filter(filtered, (log: FileLog) => OnOrAfter(log.uploadedDate, f.dateFrom));
    }
    FileStep6(logs, term, f);
    if f.dateTo.Some? {
      filtered := Filter(filtered, (log: FileLog) => OnOrBefore(log.uploadedDate, f.dateTo));
    }
  }

  /** The file search keeps order, and keeps a log exactly when every applied
      test holds for it. */
  lemma FileSearchSound(logs: seq<FileLog>, term: string, f: FileFilters, log: FileLog)
    ensures IsSubsequence(Filter(logs, l => MatchesFileSearch(l, term, f)), logs)
    ensures log in Filter(logs, l => MatchesFileSearch(l, term, f)) <==>
            log in logs
            && (term == "" || FileTextHit(log, Lower(term)))
            && (!Active(f.fileType) || log.fileType == Some(f.fileType))
            && (!Active(f.action) || log.action == f.action)
            && (!Active(f.status) || log.status == f.status)
            && OnOrAfter(log.uploadedDate, f.dateFrom) && OnOrBefore(log.uploadedDate, f.dateTo)
    ensures multiset(Filter(logs, l => MatchesFileSearch(l, term, f)))[log] ==
            if MatchesFileSearch(log, term, f) then multiset(logs)[log] else 0
  {
  }

  /** Empty or `'all'` filters and no search term keep every file log. */
  lemma FileSearchIdentity(logs: seq<FileLog>, f: FileFilters)
    requires !Active(f.fileType) && !Active(f.action) && !Active(f.status)
    requires f.dateFrom.None? && f.dateTo.None?
    ensures Filter(logs, l => MatchesFileSearch(l, "", f)) == logs
  {
    FilterAll(logs, l => MatchesFileSearch(l, "", f));
  }

  // ------------------------------------------------------------ permissions

  /** A `resource:action` permission string, kept as its two halves. */
  datatype Grant = Grant(resource: string, action: string)

  function GrantText(g: Grant): string
  {
    g.resource + ":" + g.action
  }

  function Texts(gs: seq<Grant>): (ts: seq<string>)
    ensures |ts| == |gs|
    ensures forall i :: 0 <= i < |gs| ==> ts[i] == GrantText(gs[i])
  {
    seq(|gs|, i requires 0 <= i < |gs| => GrantText(gs[i]))
  }

  predicate ColonFree(gs: seq<Grant>)
  {
    forall i :: 0 <= i < |gs| ==> ':' !in gs[i].resource && ':' !in gs[i].action
  }

  const ManagerGrants: seq<Grant> := [
    Grant("expense", "create"), Grant("expense", "read"), Grant("expense", "update"), Grant("expense", "approve"),
    Grant("vendor", "read"), Grant("employee", "read"),
    Grant("file", "upload"), Grant("file", "download"), Grant("file", "view_own"),
    Grant("audit", "view_own")]

  const UserGrants: seq<Grant> := [
    Grant("expense", "create"), Grant("expense", "read_own"),
    Grant("vendor", "read"), Grant("employee", "read"),
    Grant("file", "upload"), Grant("file", "download_template"),
    Grant("template", "download")]

  /** The grants listed for a role; admin and unknown roles list none. */
  function GrantsOf(role: Option<string>): seq<Grant>
  {
    if role == Some("manager") then ManagerGrants
    else if role == Some("user") then UserGrants
    else []
  }

  /** `PERMISSIONS[role] || []`. */
  function Permissions(role: Option<string>): (perms: seq<string>)
    ensures role != Some("admin") ==> perms == Texts(GrantsOf(role))
  {
    if role == Some("admin") then ["*"] else Texts(GrantsOf(role))
  }

  /** `hasPermission(user, action, resource)`; `None` is a missing user. */
  predicate HasPermission(user: Option<Record>, action: string, resource: string)
  {
    if user.None? || !Truthy(user.value, "role") then false
    else
      var perms := Permissions(Get(user.value, "role"));
      if "*" in perms then true
      else resource + ":" + action in perms
  }

  /** A permission string splits back into the grant it came from. */
  lemma GrantTextSplit(g: Grant)
    requires ':' !in g.resource && ':' !in g.action
    ensures Split(GrantText(g), ':') == [g.resource, g.action]
  {
    SplitFirst(g.resource, ':', g.action);
    SplitNoSeparator(g.action, ':');
  }

  /** `r:a` spells a grant's text only when it is that grant: the one colon
      of the text sits right after the resource. */
  lemma GrantTextUnique(g: Grant, r: string, a: string)
    requires ':' !in g.resource && ':' !in g.action
    ensures r + ":" + a == GrantText(g) <==> g == Grant(r, a)
  {
    var s := GrantText(g);
    if r + ":" + a == s {
      assert s[|r|] == ':';
      assert |r| == |g.resource|;
      assert r == s[..|r|];
      assert g.resource == s[..|g.resource|];
      assert a == s[|r| + 1..];
      assert g.action == s[|g.resource| + 1..];
    }
  }

  /** Membership of `r:a` among colon-free grants' texts is membership of the grant. */
  lemma TextsMember(gs: seq<Grant>, r: string, a: string)
    requires ColonFree(gs)
    ensures r + ":" + a in Texts(gs) <==> Grant(r, a) in gs
  {
    if r + ":" + a in Texts(gs) {
      var i :| 0 <= i < |gs| && Texts(gs)[i] == r + ":" + a;
      GrantTextUnique(gs[i], r, a);
    }
    if Grant(r, a) in gs {
      var i :| 0 <= i < |gs| && gs[i] == Grant(r, a);
      assert Texts(gs)[i] == r + ":" + a;
    }
  }

  /** No grant's text is the wildcard. */
  lemma NoWildcard(gs: seq<Grant>)
    ensures "*" !in Texts(gs)
  {
    forall i | 0 <= i < |gs| ensures Texts(gs)[i] != "*" {
      assert Texts(gs)[i][|gs[i].resource|] == ':';
    }
  }

  lemma TablesColonFree()
    ensures ColonFree(ManagerGrants) && ColonFree(UserGrants)
  {
    ManagerColonFree();
    UserColonFree();
  }

  /** A table whose every resource and action is one of `words` is
      colon-free when the words are. */
  lemma FromWords(gs: seq<Grant>, words: seq<string>)
    requires forall i :: 0 <= i < |words| ==> ':' !in words[i]
    requires forall i :: 0 <= i < |gs| ==> gs[i].resource in words && gs[i].action in words
    ensures ColonFree(gs)
  {
  }

  const ManagerWords: seq<string> := ["expense", "create", "read", "update", "approve", "vendor", "employee",
                                       "file", "upload", "download", "view_own", "audit"]
  const UserWords: seq<string> := ["expense", "create", "read_own", "vendor", "read", "employee",
                                    "file", "upload", "download_template", "template", "download"]

  lemma ManagerWordsColonFree()
    ensures forall i :: 0 <= i < |ManagerWords| ==> ':' !in ManagerWords[i]
  {
    forall i | 0 <= i < |ManagerWords| ensures ':' !in ManagerWords[i] {
    }
  }

  lemma ManagerGrantsInWords()
    ensures forall i :: 0 <= i < |ManagerGrants| ==> ManagerGrants[i].resource in ManagerWords && ManagerGrants[i].action in ManagerWords
  {
  }

  lemma ManagerColonFree()
    ensures ColonFree(ManagerGrants)
  {
    ManagerWordsColonFree();
    ManagerGrantsInWords();
    FromWords(ManagerGrants, ManagerWords);
  }

  lemma UserWordsColonFree()
    ensures forall i :: 0 <= i < |UserWords| ==> ':' !in UserWords[i]
  {
    forall i | 0 <= i < |UserWords| ensures ':' !in UserWords[i] {
    }
  }

  lemma UserGrantsInWords()
    ensures forall i :: 0 <= i < |UserGrants| ==> UserGrants[i].resource in UserWords && UserGrants[i].action in UserWords
  {
  }

  lemma UserColonFree()
    ensures ColonFree(UserGrants)
  {
    UserWordsColonFree();
    UserGrantsInWords();
    FromWords(UserGrants, UserWords);
  }

  /** `hasPermission`: false without a user or role and for unknown roles,
      always true for admin, and otherwise exactly whether the role's table
      lists `resource:action`. */
  lemma HasPermissionSpec(user: Option<Record>, action: string, resource: string)
    ensures user.None? || !Truthy(user.value, "role") ==> !HasPermission(user, action, resource)
    ensures user.Some? && Get(user.value, "role") == Some("admin") ==> HasPermission(user, action, resource)
    ensures user.Some? && Truthy(user.value, "role") && Get(user.value, "role") != Some("admin") ==>
              (HasPermission(user, action, resource) <==> Grant(resource, action) in GrantsOf(Get(user.value, "role")))
    ensures user.Some? && Get(user.value, "role") !in {Some("admin"), Some("manager"), Some("user")} ==>
              !HasPermission(user, action, resource)
  {
    TablesColonFree();
    if user.Some? && Get(user.value, "role") != Some("admin") {
      var gs := GrantsOf(Get(user.value, "role"));
      NoWildcard(gs);
      TextsMember(gs, resource, action);
    }
  }

  /** Only admin may edit or delete vendors and employees, or delete expenses. */
  lemma OnlyAdminChangesMasterData(user: Record)
    requires Get(user, "role") != Some("admin")
    ensures !HasPermission(Some(user), "edit", "vendor") && !HasPermission(Some(user), "delete", "vendor")
    ensures !HasPermission(Some(user), "edit", "employee") && !HasPermission(Some(user), "delete", "employee")
    ensures !HasPermission(Some(user), "delete", "expense")
  {
    var role := Get(user, "role");
    NoEditOrDelete(role, "vendor");
    NoEditOrDelete(role, "employee");
    NoEditOrDelete(role, "expense");
    HasPermissionSpec(Some(user), "edit", "vendor");
    HasPermissionSpec(Some(user), "delete", "vendor");
    HasPermissionSpec(Some(user), "edit", "employee");
    HasPermissionSpec(Some(user), "delete", "employee");
    HasPermissionSpec(Some(user), "delete", "expense");
  }

  /** No role's table lists an `edit` or a `delete` grant. */
  lemma NoEditOrDelete(role: Option<string>, resource: string)
    ensures Grant(resource, "edit") !in GrantsOf(role) && Grant(resource, "delete") !in GrantsOf(role)
  {
    var gs := GrantsOf(role);
    forall i | 0 <= i < |gs|
      ensures gs[i].action != "edit" && gs[i].action != "delete"
    {
      assert gs[i].action[0] != 'e' || |gs[i].action| != 4;
      assert gs[i].action[0] != 'd' || |gs[i].action| != 6;
    }
  }

  const AdminActions: seq<string> := ["create", "read", "update", "delete", "approve"]

  /** The actions of the grants on `resource`, in table order. */
  function ActionsFor(gs: seq<Grant>, resource: string): seq<string>
    decreases |gs|
  {
    if |gs| == 0 then []
    else
      var init := ActionsFor(gs[..|gs| - 1], resource);
      if gs[|gs| - 1].resource == resource then init + [gs[|gs| - 1].action] else init
  }

  lemma {:induction false} ActionsForMember(gs: seq<Grant>, resource: string, a: string)
    ensures a in ActionsFor(gs, resource) <==> Grant(resource, a) in gs
    decreases |gs|
  {
    if |gs| > 0 {
      var init := gs[..|gs| - 1];
      ActionsForMember(init, resource, a);
      InitLast(gs);
    }
  }

  /** `getAllowedActions(user, resource)`: the fixed five for a wildcard
      role, otherwise the action half of each permission on `resource`. */
  method GetAllowedActions(user: Record, resource: string) returns (actions: seq<string>)
    ensures Get(user, "role") == Some("admin") ==> actions == AdminActions
    ensures Get(user, "role") != Some("admin") ==> actions == ActionsFor(GrantsOf(Get(user, "role")), resource)
  {
    var perms := Permissions(Get(user, "role"));
    if "*" in perms {
      NoWildcard(GrantsOf(Get(user, "role")));
      return AdminActions;
    }
    ghost var gs := GrantsOf(Get(user, "role"));
    TablesColonFree();
    actions := [];
    for i := 0 to |perms|
      invariant actions == ActionsFor(gs[..i], resource)
    {
      GrantTextSplit(gs[i]);
      var parts := Split(perms[i], ':');
      assert gs[..i + 1][..i] == gs[..i];
      if parts[0] == resource {
        actions := actions + [parts[1]];
      }
    }
    assert gs[..|perms|] == gs;
  }

  /** For every role but admin, `a` is an allowed action on `r` exactly when
      `hasPermission(user, a, r)` holds. */
  lemma AllowedActionsIff(user: Record, r: string, a: string)
    requires Get(user, "role") != Some("admin")
    ensures a in ActionsFor(GrantsOf(Get(user, "role")), r) <==> HasPermission(Some(user), a, r)
  {
    ActionsForMember(GrantsOf(Get(user, "role")), r, a);
    HasPermissionSpec(Some(user), a, r);
  }
}
