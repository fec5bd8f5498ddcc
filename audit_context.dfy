/** `auditReducer` and `logAudit` (src/contexts/AuditContext.jsx): a log of
    plain-object entries, newest first, of which the newest 1000 are saved. */
module AuditContext {
  import opened Js

  datatype AuditState = AuditState(auditLogs: seq<Record>, loading: bool)

  /** The dispatched actions by `type`; `Unknown` stands for any other type. */
  datatype AuditAction =
    | LoadAuditLogs(logs: seq<Record>)
    | AddAuditLog(entry: Record)
    | ClearAuditLogs
    | SetLoading(flag: bool)
    | Unknown(kind: string)

  const InitialState := AuditState([], true)

  /** How many entries the provider writes to storage. */
  const SaveLimit: nat := 1000

  /** `auditReducer(state, action)`. */
  function Reduce(s: AuditState, a: AuditAction): (t: AuditState)
    ensures a.LoadAuditLogs? ==> t.auditLogs == a.logs && !t.loading
    ensures a.AddAuditLog? ==> |t.auditLogs| == |s.auditLogs| + 1 && t.auditLogs[0] == a.entry
                               && t.auditLogs[1..] == s.auditLogs
    ensures a.ClearAuditLogs? ==> t.auditLogs == []
    ensures a.SetLoading? ==> t.auditLogs == s.auditLogs && t.loading == a.flag
    ensures !a.LoadAuditLogs? && !a.SetLoading? ==> t.loading == s.loading
    ensures a.Unknown? ==> t == s
  {
    match a
    case LoadAuditLogs(logs) => AuditState(logs, false)
    case AddAuditLog(e) => s.(auditLogs := [e] + s.auditLogs)
    case ClearAuditLogs => s.(auditLogs := [])
    case SetLoading(flag) => s.(loading := flag)
    case Unknown(_) => s
  }

  /** `auditLogs.slice(0, 1000)`: the newest entries, at most 1000 of them. */
  function Persisted(logs: seq<Record>): (saved: seq<Record>)
    ensures |saved| == if |logs| <= SaveLimit then |logs| else SaveLimit
    ensures saved == logs[..|saved|]
  {
    if |logs| <= SaveLimit then logs else logs[..SaveLimit]
  }

  /** Saving after a new entry keeps that entry first; once the log is full
      the oldest saved entry drops out. */
  lemma PersistedAfterAdd(s: AuditState, e: Record)
    ensures Persisted(Reduce(s, AddAuditLog(e)).auditLogs) ==
              if |s.auditLogs| < SaveLimit then [e] + s.auditLogs
              else [e] + Persisted(s.auditLogs)[..SaveLimit - 1]
  {
    var t := Reduce(s, AddAuditLog(e)).auditLogs;
    if |s.auditLogs| >= SaveLimit {
      assert t[..SaveLimit] == [e] + s.auditLogs[..SaveLimit - 1];
    }
  }

  /** The entry `logAudit` dispatches: `{ id, timestamp, ...logData }`, so a
      field of the same name in `logData` wins over the generated one. */
  function Stamped(id: string, timestamp: string, logData: Record): (e: Record)
    ensures Get(e, "id") == if "id" in logData then Get(logData, "id") else Some(id)
    ensures Get(e, "timestamp") == if "timestamp" in logData then Get(logData, "timestamp") else Some(timestamp)
    ensures forall k :: k != "id" && k != "timestamp" ==> Get(e, k) == Get(logData, k)
  {
    map["id" := id, "timestamp" := timestamp] + logData
  }

  /** The provider's state as `useReducer` holds it. */
  class AuditProvider {
    var state: AuditState

    constructor()
      ensures state == InitialState
    {
      state := InitialState;
    }

    /** `logAudit(logData)`: stamps the entry with an id made from the clock
        and a random suffix and the current time, then dispatches
        `ADD_AUDIT_LOG`. */
    method LogAudit(logData: Record, nowMillis: int, nowIso: string, suffix: string) returns (entry: Record)
      modifies this
      ensures entry == Stamped("AUDIT-" + IntToString(nowMillis) + "-" + suffix, nowIso, logData)
      ensures state == Reduce(old(state), AddAuditLog(entry))
      ensures state.auditLogs == [entry] + old(state.auditLogs) && state.loading == old(state.loading)
    {
      entry := map["id" := "AUDIT-" + IntToString(nowMillis) + "-" + suffix, "timestamp" := nowIso] + logData;
      state := state.(auditLogs := [entry] + state.auditLogs);
    }
  }
}
