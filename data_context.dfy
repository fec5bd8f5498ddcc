/** `dataReducer` (src/contexts/DataContext.jsx): the vendor, employee and
    user directories as plain objects keyed by id, `empId` and `username`. */
module DataContext {
  import opened Js

  /** A plain object of records: `{ [key]: record }`. */
  type Directory = map<string, Record>

  datatype DataState = DataState(vendors: Directory, employees: Directory, users: Directory, loading: bool)

  /** The dispatched actions by `type`; `LoadData` carries whichever of the
      three parts the payload has, and `Unknown` stands for any other type. */
  datatype DataAction =
    | LoadData(someVendors: Option<Directory>, someEmployees: Option<Directory>, someUsers: Option<Directory>)
    | AddVendor(vendor: Record)
    | UpdateVendor(vendorPatch: Record)
    | DeleteVendor(vendorId: string)
    | AddEmployee(employee: Record)
    | UpdateEmployee(employeePatch: Record)
    | DeleteEmployee(empId: string)
    | AddUser(user: Record)
    | UpdateUser(userPatch: Record)
    | DeleteUser(username: string)
    | SetLoading(flag: bool)
    | Unknown(kind: string)

  const InitialState := DataState(map[], map[], map[], true)

  // -------------------------------------------------- directory semantics

  /** `after` is `before` with `r` stored under `key`, replacing any entry. */
  predicate Added(after: Directory, before: Directory, key: string, r: Record)
  {
    after.Keys == before.Keys + {key} && key in after && after[key] == r
    && forall k :: k in before && k != key ==> after[k] == before[k]
  }

  /** `after` is `before` with `patch`'s fields laid over the entry under `key`
      (an empty record when there is none); every other entry is kept. */
  ghost predicate Overlaid(after: Directory, before: Directory, key: string, patch: Record)
  {
    after.Keys == before.Keys + {key} && key in after
    && (forall k :: k in before && k != key ==> after[k] == before[k])
    && forall f :: Get(after[key], f) == if f in patch then Some(patch[f])
                                         else if key in before then Get(before[key], f) else None
  }

  /** `after` is `before` without `key`; every other entry is kept. */
  predicate Removed(after: Directory, before: Directory, key: string)
  {
    after.Keys == before.Keys - {key} && forall k :: k in after ==> after[k] == before[k]
  }

  // ------------------------------------------------------------- reducer

  /** `{...m, [key]: {...m[key], ...patch}}`; spreading a missing entry adds nothing. */
  function Overlay(m: Directory, key: string, patch: Record): (r: Directory)
    ensures Overlaid(r, m, key, patch)
  {
    m[key := (if key in m then m[key] else map[]) + patch]
  }

  /** `payload || {}` */
  function OrEmpty(d: Option<Directory>): Directory
  {
    if d.Some? then d.value else map[]
  }

  /** The computed key `[payload[field]]`; a missing field is the key `"undefined"`. */
  function KeyOf(payload: Record, field: string): (k: string)
    ensures field in payload ==> k == payload[field]
  {
    Show(Get(payload, field))
  }

  /** `dataReducer(state, action)`. */
  function Reduce(s: DataState, a: DataAction): (t: DataState)
    ensures a.LoadData? ==>
              t.vendors == OrEmpty(a.someVendors) && t.employees == OrEmpty(a.someEmployees)
              && t.users == OrEmpty(a.someUsers) && !t.loading
    ensures a.AddVendor? ==> Added(t.vendors, s.vendors, KeyOf(a.vendor, "id"), a.vendor)
    ensures a.UpdateVendor? ==> Overlaid(t.vendors, s.vendors, KeyOf(a.vendorPatch, "id"), a.vendorPatch)
    ensures a.DeleteVendor? ==> Removed(t.vendors, s.vendors, a.vendorId)
    ensures a.AddEmployee? ==> Added(t.employees, s.employees, KeyOf(a.employee, "empId"), a.employee)
    ensures a.UpdateEmployee? ==> Overlaid(t.employees, s.employees, KeyOf(a.employeePatch, "empId"), a.employeePatch)
    ensures a.DeleteEmployee? ==> Removed(t.employees, s.employees, a.empId)
    ensures a.AddUser? ==> Added(t.users, s.users, KeyOf(a.user, "username"), a.user)
    ensures a.UpdateUser? ==> Overlaid(t.users, s.users, KeyOf(a.userPatch, "username"), a.userPatch)
    ensures a.DeleteUser? ==> Removed(t.users, s.users, a.username)
    ensures !a.LoadData? && !(a.AddVendor? || a.UpdateVendor? || a.DeleteVendor?) ==> t.vendors == s.vendors
    ensures !a.LoadData? && !(a.AddEmployee? || a.UpdateEmployee? || a.DeleteEmployee?) ==> t.employees == s.employees
    ensures !a.LoadData? && !(a.AddUser? || a.UpdateUser? || a.DeleteUser?) ==> t.users == s.users
    ensures a.SetLoading? ==> t.loading == a.flag
    ensures !a.LoadData? && !a.SetLoading? ==> t.loading == s.loading
    ensures a.Unknown? ==> t == s
  {
    match a
    case LoadData(v, e, u) => DataState(OrEmpty(v), OrEmpty(e), OrEmpty(u), false)
    case AddVendor(r) => s.(vendors := s.vendors[KeyOf(r, "id") := r])
    case UpdateVendor(p) => s.(vendors := Overlay(s.vendors, KeyOf(p, "id"), p))
    case DeleteVendor(k) => s.(vendors := s.vendors - {k})
    case AddEmployee(r) => s.(employees := s.employees[KeyOf(r, "empId") := r])
    case UpdateEmployee(p) => s.(employees := Overlay(s.employees, KeyOf(p, "empId"), p))
    case DeleteEmployee(k) => s.(employees := s.employees - {k})
    case AddUser(r) => s.(users := s.users[KeyOf(r, "username") := r])
    case UpdateUser(p) => s.(users := Overlay(s.users, KeyOf(p, "username"), p))
    case DeleteUser(k) => s.(users := s.users - {k})
    case SetLoading(flag) => s.(loading := flag)
    case Unknown(_) => s
  }

  // ------------------------------------------------------------ properties

  /** Deleting what was just added gives back the directory without that key,
      which is the original one when the key was new. */
  lemma DeleteUndoesAdd(s: DataState, v: Record)
    requires "id" in v
    ensures Reduce(Reduce(s, AddVendor(v)), DeleteVendor(v["id"])).vendors == s.vendors - {v["id"]}
    ensures v["id"] !in s.vendors ==> Reduce(Reduce(s, AddVendor(v)), DeleteVendor(v["id"])).vendors == s.vendors
  {
    var t := Reduce(Reduce(s, AddVendor(v)), DeleteVendor(v["id"]));
    assert t.vendors.Keys == (s.vendors - {v["id"]}).Keys;
  }

  /** Adding under a new key grows the directory by exactly one entry. */
  lemma AddGrowsByOne(before: Directory, after: Directory, key: string, r: Record)
    requires Added(after, before, key, r) && key !in before
    ensures |after| == |before| + 1
  {
    assert after.Keys == before.Keys + {key};
    assert |after.Keys| == |before.Keys| + 1;
  }

  /** Removing a present key shrinks the directory by exactly one entry. */
  lemma RemoveShrinksByOne(before: Directory, after: Directory, key: string)
    requires Removed(after, before, key) && key in before
    ensures |after| == |before| - 1
  {
    assert before.Keys == after.Keys + {key};
    assert |before.Keys| == |after.Keys| + 1;
  }

  /** An update with the fields an entry already has leaves the directory as it was. */
  lemma OverlaySame(m: Directory, key: string, patch: Record)
    requires key in m && forall f :: f in patch ==> f in m[key] && m[key][f] == patch[f]
    ensures Overlay(m, key, patch) == m
  {
    var o := Overlay(m, key, patch);
    assert o[key] == m[key] by {
      assert o[key].Keys == m[key].Keys;
    }
  }
}
