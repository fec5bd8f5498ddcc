/** `useEmployees` (src/hooks/useEmployees.js): the employee directory of the
    master data, keyed by `empId`, and the shared audit ledger. */
module UseEmployees {
  import opened Js
  import opened EnterpriseUtils
  import DataContext

  const FillRequired := "Please fill in all required fields"
  const BadEmpId := "Emp ID must start with \"E\" (example: E0001)"
  const EmployeeNotFound := "Employee not found"

  /** `Employee ID ${empId} already exists!` */
  function AlreadyExists(empId: string): string
  {
    "Employee ID " + empId + " already exists!"
  }

  /** The fields both add and update insist on, besides the employee id. */
  predicate HasDetails(data: Record)
  {
    Truthy(data, "name") && Truthy(data, "bankName") && Truthy(data, "ifsc") && Truthy(data, "accountNo")
  }

  const CreationKeys := {"empId", "ifsc", "type", "addedDate", "source"}
  const ModificationKeys := {"empId", "ifsc", "lastModified", "modifiedBy"}

  /** `{ ...data, empId, ifsc: ifsc.toUpperCase(), type: 'employee', addedDate, source: 'manual_entry' }`. */
  function NewEmployee(data: Record, now: Moment): (r: Record)
    requires "empId" in data && "ifsc" in data
    ensures Get(r, "empId") == Get(data, "empId")
    ensures Get(r, "ifsc") == Some(Upper(data["ifsc"]))
    ensures Get(r, "type") == Some("employee") && Get(r, "source") == Some("manual_entry")
    ensures Get(r, "addedDate") == Some(now.iso)
    ensures forall k :: k !in CreationKeys ==> Get(r, k) == Get(data, k)
  {
    data["empId" := data["empId"]]["ifsc" := Upper(data["ifsc"])]["type" := "employee"]
        ["addedDate" := now.iso]["source" := "manual_entry"]
  }

  /** `{ ...old, ...data, empId, ifsc: ifsc.toUpperCase(), lastModified, modifiedBy }`:
      the id the caller names is kept whatever `empId` the data carries. */
  function UpdatedEmployee(previous: Record, empId: string, data: Record, user: Record, now: Moment): (r: Record)
    requires "ifsc" in data
    ensures Get(r, "empId") == Some(empId)
    ensures Get(r, "ifsc") == Some(Upper(data["ifsc"]))
    ensures Get(r, "lastModified") == Some(now.iso) && Get(r, "modifiedBy") == Get(user, "username")
    ensures forall k :: k !in ModificationKeys ==> Get(r, k) == if k in data then Get(data, k) else Get(previous, k)
  {
    Put((previous + data)["empId" := empId]["ifsc" := Upper(data["ifsc"])]["lastModified" := now.iso],
        "modifiedBy", Get(user, "username"))
  }

  class EmployeeHook {
    var employees: DataContext.Directory
    const currentUser: Record
    const audit: AuditTrail

    constructor(initial: DataContext.Directory, user: Record, trail: AuditTrail)
      ensures employees == initial && currentUser == user && audit == trail
    {
      employees := initial;
      currentUser := user;
      audit := trail;
    }

    /** `requirePermission(currentUser, verb, 'employee')`. */
    predicate Allowed(verb: string)
    {
      HasPermission(Some(currentUser), verb, "employee")
    }

    /** `addEmployee(employeeData)`: the checks run in the order permission,
        required fields, `E` prefix, duplicate id. */
    method AddEmployee(data: Record, now: Moment, logId: string) returns (result: Outcome)
      modifies this, audit
      ensures result.success <==>
                Allowed("create") && Truthy(data, "empId") && HasDetails(data)
                && IsPrefix("E", data["empId"]) && data["empId"] !in old(employees)
      ensures !Allowed("create") ==>
                employees == old(employees) && result == Failed(InsufficientPermissions)
                && Prepended(audit.entries, old(audit.entries))
                && DeniedEntry(audit.entries[0], "employee", None, "create", currentUser, now, logId)
      ensures Allowed("create") && !(Truthy(data, "empId") && HasDetails(data)) ==>
                employees == old(employees) && audit.entries == old(audit.entries) && result == Failed(FillRequired)
      ensures Allowed("create") && Truthy(data, "empId") && HasDetails(data) && !IsPrefix("E", data["empId"]) ==>
                employees == old(employees) && audit.entries == old(audit.entries) && result == Failed(BadEmpId)
      ensures Allowed("create") && Truthy(data, "empId") && HasDetails(data) && IsPrefix("E", data["empId"])
              && data["empId"] in old(employees) ==>
                employees == old(employees) && audit.entries == old(audit.entries)
                && result == Failed(AlreadyExists(data["empId"]))
      ensures result.success ==>
                var e := NewEmployee(data, now);
                DataContext.Added(employees, old(employees), data["empId"], e)
                && |employees| == |old(employees)| + 1
                && result == Outcome(true, None, Some(e))
                && Prepended(audit.entries, old(audit.entries))
                && LoggedAs(audit.entries[0], "employee_created", "employee", Some(data["empId"]), None, Some(e),
                            currentUser, true, None, now, logId)
    {
      if !Allowed("create") {
        var _ := audit.LogAudit("permission_denied", "employee", None, None, Some(map["action" := "create"]),
                                currentUser, false, Some(InsufficientPermissions), now, logId);
        return Failed(InsufficientPermissions);
      }
      if !(Truthy(data, "empId") && HasDetails(data)) {
        return Failed(FillRequired);
      }
      var empId := data["empId"];
      if !IsPrefix("E", empId) {
        return Failed(BadEmpId);
      }
      if empId in employees {
        return Failed(AlreadyExists(empId));
      }
      var e := NewEmployee(data, now);
      ghost var before := employees;
      employees := employees[empId := e];
      DataContext.AddGrowsByOne(before, employees, empId, e);
      var _ := audit.LogAudit("employee_created", "employee", Some(empId), None, Some(e),
                              currentUser, true, None, now, logId);
      result := Outcome(true, None, Some(e));
    }

    /** `updateEmployee(empId, employeeData)`. */
    method UpdateEmployee(empId: string, data: Record, now: Moment, logId: string) returns (result: Outcome)
      modifies this, audit
      ensures result.success <==> Allowed("edit") && empId != "" && HasDetails(data) && empId in old(employees)
      ensures !Allowed("edit") ==>
                employees == old(employees) && result == Failed(InsufficientPermissions)
                && Prepended(audit.entries, old(audit.entries))
                && DeniedEntry(audit.entries[0], "employee", Some(empId), "edit", currentUser, now, logId)
      ensures Allowed("edit") && !(empId != "" && HasDetails(data)) ==>
                employees == old(employees) && audit.entries == old(audit.entries) && result == Failed(FillRequired)
      ensures Allowed("edit") && empId != "" && HasDetails(data) && empId !in old(employees) ==>
                employees == old(employees) && audit.entries == old(audit.entries) && result == Failed(EmployeeNotFound)
      ensures result.success ==>
                var u := UpdatedEmployee(old(employees)[empId], empId, data, currentUser, now);
                DataContext.Added(employees, old(employees), empId, u) && employees.Keys == old(employees).Keys
                && result == Outcome(true, None, Some(u))
                && Prepended(audit.entries, old(audit.entries))
                && LoggedAs(audit.entries[0], "employee_updated", "employee", Some(empId), Some(old(employees)[empId]),
                            Some(u), currentUser, true, None, now, logId)
    {
      if !Allowed("edit") {
        var _ := audit.LogAudit("permission_denied", "employee", Some(empId), None, Some(map["action" := "edit"]),
                                currentUser, false, Some(InsufficientPermissions), now, logId);
        return Failed(InsufficientPermissions);
      }
      if !(empId != "" && HasDetails(data)) {
        return Failed(FillRequired);
      }
      if empId !in employees {
        return Failed(EmployeeNotFound);
      }
      var previous := employees[empId];
      var u := UpdatedEmployee(previous, empId, data, currentUser, now);
      employees := employees[empId := u];
      var _ := audit.LogAudit("employee_updated", "employee", Some(empId), Some(previous), Some(u),
                              currentUser, true, None, now, logId);
      result := Outcome(true, None, Some(u));
    }

    /** `deleteEmployee(empId)`: exactly that key goes. */
    method DeleteEmployee(empId: string, now: Moment, logId: string) returns (result: Outcome)
      modifies this, audit
      ensures result.success <==> Allowed("delete") && empId in old(employees)
      ensures !Allowed("delete") ==>
                employees == old(employees) && result == Failed(InsufficientPermissions)
                && Prepended(audit.entries, old(audit.entries))
                && DeniedEntry(audit.entries[0], "employee", Some(empId), "delete", currentUser, now, logId)
      ensures Allowed("delete") && empId !in old(employees) ==>
                employees == old(employees) && audit.entries == old(audit.entries) && result == Failed(EmployeeNotFound)
      ensures result.success ==>
                DataContext.Removed(employees, old(employees), empId) && |employees| == |old(employees)| - 1
                && result == Outcome(true, None, None)
                && Prepended(audit.entries, old(audit.entries))
                && LoggedAs(audit.entries[0], "employee_deleted", "employee", Some(empId), Some(old(employees)[empId]),
                            None, currentUser, true, None, now, logId)
    {
      if !Allowed("delete") {
        var _ := audit.LogAudit("permission_denied", "employee", Some(empId), None, Some(map["action" := "delete"]),
                                currentUser, false, Some(InsufficientPermissions), now, logId);
        return Failed(InsufficientPermissions);
      }
      if empId !in employees {
        return Failed(EmployeeNotFound);
      }
      var employee := employees[empId];
      ghost var before := employees;
      employees := employees - {empId};
      DataContext.RemoveShrinksByOne(before, employees, empId);
      var _ := audit.LogAudit("employee_deleted", "employee", Some(empId), Some(employee), None,
                              currentUser, true, None, now, logId);
      result := Outcome(true, None, None);
    }
  }
}
