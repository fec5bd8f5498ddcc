/** `useVendors` (src/hooks/useVendors.js): the vendor directory of the
    master data and the shared audit ledger. Each operation checks a
    permission, then the required fields, then changes one key of the
    directory and prepends one ledger entry. */
module UseVendors {
  import opened Js
  import opened EnterpriseUtils
  import DataContext

  const FillRequired := "Please fill in all required fields"
  const VendorNotFound := "Vendor not found"

  /** `!name || !bank || !ifsc || !accountNo` does not hold. */
  predicate HasRequired(data: Record)
  {
    Truthy(data, "name") && Truthy(data, "bank") && Truthy(data, "ifsc") && Truthy(data, "accountNo")
  }

  const CreationKeys := {"id", "ifsc", "type", "addedDate", "source"}
  const ModificationKeys := {"ifsc", "lastModified", "modifiedBy"}

  /** `{ id, ...data, ifsc: ifsc.toUpperCase(), type: 'vendor', addedDate, source: 'manual_entry' }`:
      an `id` in the data wins over the generated one, the IFSC is only upper-cased. */
  function NewVendor(id: string, data: Record, now: Moment): (r: Record)
    requires "ifsc" in data
    ensures Get(r, "id") == if "id" in data then Get(data, "id") else Some(id)
    ensures Get(r, "ifsc") == Some(Upper(data["ifsc"]))
    ensures Get(r, "type") == Some("vendor") && Get(r, "source") == Some("manual_entry")
    ensures Get(r, "addedDate") == Some(now.iso)
    ensures forall k :: k !in CreationKeys ==> Get(r, k) == Get(data, k)
  {
    (map["id" := id] + data)["ifsc" := Upper(data["ifsc"])]["type" := "vendor"]["addedDate" := now.iso]["source" := "manual_entry"]
  }

  /** `{ ...old, ...data, ifsc: ifsc.toUpperCase(), lastModified, modifiedBy }`. */
  function UpdatedVendor(previous: Record, data: Record, user: Record, now: Moment): (r: Record)
    requires "ifsc" in data
    ensures Get(r, "ifsc") == Some(Upper(data["ifsc"]))
    ensures Get(r, "lastModified") == Some(now.iso) && Get(r, "modifiedBy") == Get(user, "username")
    ensures forall k :: k !in ModificationKeys ==> Get(r, k) == if k in data then Get(data, k) else Get(previous, k)
  {
    Put((previous + data)["ifsc" := Upper(data["ifsc"])]["lastModified" := now.iso], "modifiedBy", Get(user, "username"))
  }

  /** Under the role table no one but an admin may add, edit or delete a vendor. */
  lemma OnlyAdminChangesVendors(user: Record)
    requires Get(user, "role") != Some("admin")
    ensures !HasPermission(Some(user), "create", "vendor")
    ensures !HasPermission(Some(user), "edit", "vendor") && !HasPermission(Some(user), "delete", "vendor")
  {
    OnlyAdminChangesMasterData(user);
    HasPermissionSpec(Some(user), "create", "vendor");
    assert Grant("vendor", "create") !in ManagerGrants;
    assert Grant("vendor", "create") !in UserGrants;
  }

  class VendorHook {
    var vendors: DataContext.Directory
    const currentUser: Record
    const audit: AuditTrail

    constructor(initial: DataContext.Directory, user: Record, trail: AuditTrail)
      ensures vendors == initial && currentUser == user && audit == trail
    {
      vendors := initial;
      currentUser := user;
      audit := trail;
    }

    /** `requirePermission(currentUser, verb, 'vendor')`. */
    predicate Allowed(verb: string)
    {
      HasPermission(Some(currentUser), verb, "vendor")
    }

    /** `addVendor(vendorData)`; the IFSC is never checked against its format. */
    method AddVendor(data: Record, vendorId: string, now: Moment, logId: string) returns (result: Outcome)
      modifies this, audit
      ensures result.success <==> Allowed("create") && HasRequired(data)
      ensures !Allowed("create") ==>
                vendors == old(vendors) && result == Failed(InsufficientPermissions)
                && Prepended(audit.entries, old(audit.entries))
                && DeniedEntry(audit.entries[0], "vendor", None, "create", currentUser, now, logId)
      ensures Allowed("create") && !HasRequired(data) ==>
                vendors == old(vendors) && audit.entries == old(audit.entries) && result == Failed(FillRequired)
      ensures Allowed("create") && HasRequired(data) ==>
                var v := NewVendor(vendorId, data, now);
                DataContext.Added(vendors, old(vendors), vendorId, v) && result == Outcome(true, None, Some(v))
                && (vendorId !in old(vendors) ==> |vendors| == |old(vendors)| + 1)
                && Prepended(audit.entries, old(audit.entries))
                && LoggedAs(audit.entries[0], "vendor_created", "vendor", Some(vendorId), None, Some(v),
                            currentUser, true, None, now, logId)
    {
      if !Allowed("create") {
        var _ := audit.LogAudit("permission_denied", "vendor", None, None, Some(map["action" := "create"]),
                                currentUser, false, Some(InsufficientPermissions), now, logId);
        return Failed(InsufficientPermissions);
      }
      if !HasRequired(data) {
        return Failed(FillRequired);
      }
      var v := NewVendor(vendorId, data, now);
      ghost var before := vendors;
      vendors := vendors[vendorId := v];
      if vendorId !in before {
        DataContext.AddGrowsByOne(before, vendors, vendorId, v);
      }
      var _ := audit.LogAudit("vendor_created", "vendor", Some(vendorId), None, Some(v),
                              currentUser, true, None, now, logId);
      result := Outcome(true, None, Some(v));
    }

    /** `updateVendor(vendorId, vendorData)`: the key stays, the record is overlaid. */
    method UpdateVendor(vendorId: string, data: Record, now: Moment, logId: string) returns (result: Outcome)
      modifies this, audit
      ensures result.success <==> Allowed("edit") && HasRequired(data) && vendorId in old(vendors)
      ensures !Allowed("edit") ==>
                vendors == old(vendors) && result == Failed(InsufficientPermissions)
                && Prepended(audit.entries, old(audit.entries))
                && DeniedEntry(audit.entries[0], "vendor", Some(vendorId), "edit", currentUser, now, logId)
      ensures Allowed("edit") && !HasRequired(data) ==>
                vendors == old(vendors) && audit.entries == old(audit.entries) && result == Failed(FillRequired)
      ensures Allowed("edit") && HasRequired(data) && vendorId !in old(vendors) ==>
                vendors == old(vendors) && audit.entries == old(audit.entries) && result == Failed(VendorNotFound)
      ensures Allowed("edit") && HasRequired(data) && vendorId in old(vendors) ==>
                var u := UpdatedVendor(old(vendors)[vendorId], data, currentUser, now);
                DataContext.Added(vendors, old(vendors), vendorId, u) && vendors.Keys == old(vendors).Keys
                && result == Outcome(true, None, Some(u))
                && Prepended(audit.entries, old(audit.entries))
                && LoggedAs(audit.entries[0], "vendor_updated", "vendor", Some(vendorId), Some(old(vendors)[vendorId]),
                            Some(u), currentUser, true, None, now, logId)
    {
      if !Allowed("edit") {
        var _ := audit.LogAudit("permission_denied", "vendor", Some(vendorId), None, Some(map["action" := "edit"]),
                                currentUser, false, Some(InsufficientPermissions), now, logId);
        return Failed(InsufficientPermissions);
      }
      if !HasRequired(data) {
        return Failed(FillRequired);
      }
      if vendorId !in vendors {
        return Failed(VendorNotFound);
      }
      var previous := vendors[vendorId];
      var u := UpdatedVendor(previous, data, currentUser, now);
      vendors := vendors[vendorId := u];
      var _ := audit.LogAudit("vendor_updated", "vendor", Some(vendorId), Some(previous), Some(u),
                              currentUser, true, None, now, logId);
      result := Outcome(true, None, Some(u));
    }

    /** `deleteVendor(vendorId)`: exactly that key goes. */
    method DeleteVendor(vendorId: string, now: Moment, logId: string) returns (result: Outcome)
      modifies this, audit
      ensures result.success <==> Allowed("delete") && vendorId in old(vendors)
      ensures !Allowed("delete") ==>
                vendors == old(vendors) && result == Failed(InsufficientPermissions)
                && Prepended(audit.entries, old(audit.entries))
                && DeniedEntry(audit.entries[0], "vendor", Some(vendorId), "delete", currentUser, now, logId)
      ensures Allowed("delete") && vendorId !in old(vendors) ==>
                vendors == old(vendors) && audit.entries == old(audit.entries) && result == Failed(VendorNotFound)
      ensures Allowed("delete") && vendorId in old(vendors) ==>
                DataContext.Removed(vendors, old(vendors), vendorId) && |vendors| == |old(vendors)| - 1
                && result == Outcome(true, None, None)
                && Prepended(audit.entries, old(audit.entries))
                && LoggedAs(audit.entries[0], "vendor_deleted", "vendor", Some(vendorId), Some(old(vendors)[vendorId]),
                            None, currentUser, true, None, now, logId)
    {
      if !Allowed("delete") {
        var _ := audit.LogAudit("permission_denied", "vendor", Some(vendorId), None, Some(map["action" := "delete"]),
                                currentUser, false, Some(InsufficientPermissions), now, logId);
        return Failed(InsufficientPermissions);
      }
      if vendorId !in vendors {
        return Failed(VendorNotFound);
      }
      var vendor := vendors[vendorId];
      ghost var before := vendors;
      vendors := vendors - {vendorId};
      DataContext.RemoveShrinksByOne(before, vendors, vendorId);
      var _ := audit.LogAudit("vendor_deleted", "vendor", Some(vendorId), Some(vendor), None,
                              currentUser, true, None, now, logId);
      result := Outcome(true, None, None);
    }
  }
}
