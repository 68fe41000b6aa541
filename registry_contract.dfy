/** The legacy service registry as an object whose methods update its state in place, in the
    order PointsContract_Actions.cs, PointsContract_Registration.cs and
    PointsContract_Services.cs write it. Each public method reports the outcome of the pure step
    of `Registry` it implements and, when that step succeeds, leaves exactly the state the step
    commits. Each method also names the checks that abort it before its first write; after those
    the state is untouched. A loop that aborts after a write leaves it to the host to discard the
    writes, as the AElf runtime does for a failed transaction. The views of
    PointsContract_View.cs are the functions of `Registry` applied to `Snapshot()`. */
module RegistryContract {
  import opened Common
  import opened RegistryState
  import Ops = Registry

  class PointsContract {
    /** `MaxRegistrationListCount`, the bound on a registration batch, which no operation of
        this revision sets. */
    const maxRegistrationListCount: int
    /** `PointsInfos`, the names a settlement may credit, which no operation of this revision
        writes. */
    const pointsInfos: map<string, PointInfo>

    var initialized: bool
    var admin: Option<Address>
    var reservedDomains: Option<seq<string>>
    var pointInfos: map<string, PointInfo>
    var servicesEarningRulesMap: map<string, seq<EarningRule>>
    var domainOperatorRelationshipMap: map<string, DomainOperatorRelationship>
    var applyCount: map<(Address, string), int>
    var registrationMap: map<(string, Address), RegistrationInfo>
    var maxRecordListCount: int
    var maxApplyCount: int
    var pointsPool: map<PoolKey, int>

    /** The whole contract state as one value. */
    function Snapshot(): Registry
      reads this
    {
      Registry(initialized, admin, reservedDomains, pointInfos, servicesEarningRulesMap, domainOperatorRelationshipMap,
               applyCount, registrationMap, maxRecordListCount, maxApplyCount, pointsPool, pointsInfos)
    }

    ghost predicate Valid()
      reads this
    {
      Ops.Inv(Snapshot())
    }

    /** A freshly deployed contract. */
    constructor(maxRegistrationListCount: int, pointsInfos: map<string, PointInfo>)
      ensures this.maxRegistrationListCount == maxRegistrationListCount
      ensures Snapshot() == Deployed(pointsInfos)
      ensures Valid()
    {
      this.maxRegistrationListCount := maxRegistrationListCount;
      this.pointsInfos := pointsInfos;
      initialized := false;
      admin := None;
      reservedDomains := None;
      pointInfos := map[];
      servicesEarningRulesMap := map[];
      domainOperatorRelationshipMap := map[];
      applyCount := map[];
      registrationMap := map[];
      maxRecordListCount := 0;
      maxApplyCount := 0;
      pointsPool := map[];
    }

    /** `AssertInitialized(); AssertAdmin();`: the message they abort with, or `None`. */
    method AssertAdminOperation(sender: Address) returns (err: Option<string>)
      ensures err == Ops.AdminGuard(Snapshot(), sender)
    {
      if !initialized {
        return Some("Not initialized.");
      }
      if admin != Some(sender) {
        return Some("No permission.");
      }
      return None;
    }

    // -------------------------------------------------------------------------------------
    // PointsContract_Actions.cs

    /** `Initialize`: commits exactly what `Registry.Initialize` commits. */
    method Initialize(sender: Address, isAuthor: bool, maxRecordListCount: int, maxApplyCount: int, admin: Option<Address>)
      returns (ok: Outcome)
      requires Valid()
      modifies this`initialized, this`admin, this`maxRecordListCount, this`maxApplyCount
      ensures ok == OutcomeOf(Ops.Initialize(old(Snapshot()), sender, isAuthor, maxRecordListCount, maxApplyCount, admin))
      ensures Snapshot() == Commit(old(Snapshot()), Ops.Initialize(old(Snapshot()), sender, isAuthor, maxRecordListCount,
                                                                       maxApplyCount, admin))
      ensures Valid()
    {
      if initialized {
        return Fail("Already initialized.");
      }
      if !(maxRecordListCount > 0) {
        return Fail("Invalid MaxRecordListCount.");
      }
      if !(maxApplyCount > 0) {
        return Fail("Invalid MaxApplyCount.");
      }
      if !isAuthor {
        return Fail("No permission.");
      }
      if !(admin.None? || |admin.value.value| > 0) {
        return Fail("Invalid input admin.");
      }
      this.maxRecordListCount := maxRecordListCount;
      this.maxApplyCount := maxApplyCount;
      this.admin := if admin.Some? then admin else Some(sender);
      initialized := true;
      ok := Ok;
    }

    /** `SetAdmin`: commits exactly what `Registry.SetAdmin` commits. */
    method SetAdmin(sender: Address, input: Address) returns (ok: Outcome)
      requires Valid()
      modifies this`admin
      ensures ok == OutcomeOf(Ops.SetAdmin(old(Snapshot()), sender, input))
      ensures Snapshot() == Commit(old(Snapshot()), Ops.SetAdmin(old(Snapshot()), sender, input))
      ensures Valid()
    {
      var err := AssertAdminOperation(sender);
      if err.Some? {
        return Fail(err.value);
      }
      if |input.value| == 0 {
        return Fail("Invalid input.");
      }
      admin := Some(input);
      ok := Ok;
    }

    /** `SetReservedDomainList`: commits exactly what `Registry.SetReservedDomainList` commits. */
    method SetReservedDomainList(sender: Address, list: Option<seq<string>>) returns (ok: Outcome)
      requires Valid()
      modifies this`reservedDomains
      ensures ok == OutcomeOf(Ops.SetReservedDomainList(old(Snapshot()), sender, list))
      ensures Snapshot() == Commit(old(Snapshot()), Ops.SetReservedDomainList(old(Snapshot()), sender, list))
      ensures Valid()
    {
      var err := AssertAdminOperation(sender);
      if err.Some? {
        return Fail(err.value);
      }
      if !(list.Some? && |list.value| > 0) {
        return Fail("Invalid reserved domain list count.");
      }
      reservedDomains := list;
      ok := Ok;
    }

    /** `SetMaxRecordListCount`: commits exactly what `Registry.SetMaxRecordListCount` commits. */
    method SetMaxRecordListCount(sender: Address, value: int) returns (ok: Outcome)
      requires Valid()
      modifies this`maxRecordListCount
      ensures ok == OutcomeOf(Ops.SetMaxRecordListCount(old(Snapshot()), sender, value))
      ensures Snapshot() == Commit(old(Snapshot()), Ops.SetMaxRecordListCount(old(Snapshot()), sender, value))
      ensures Valid()
    {
      var err := AssertAdminOperation(sender);
      if err.Some? {
        return Fail(err.value);
      }
      if !(value > 0) {
        return Fail("Invalid input.");
      }
      maxRecordListCount := value;
      ok := Ok;
    }

    /** `SetMaxApplyCount`: commits exactly what `Registry.SetMaxApplyCount` commits. */
    method SetMaxApplyCount(sender: Address, value: int) returns (ok: Outcome)
      requires Valid()
      modifies this`maxApplyCount
      ensures ok == OutcomeOf(Ops.SetMaxApplyCount(old(Snapshot()), sender, value))
      ensures Snapshot() == Commit(old(Snapshot()), Ops.SetMaxApplyCount(old(Snapshot()), sender, value))
      ensures Valid()
    {
      var err := AssertAdminOperation(sender);
      if err.Some? {
        return Fail(err.value);
      }
      if !(value > 0) {
        return Fail("Invalid input.");
      }
      maxApplyCount := value;
      ok := Ok;
    }

    /** `ApplyToOperator`: commits exactly what `Registry.ApplyToOperator` commits. */
    method ApplyToOperator(sender: Address, domain: string, service: string, invitee: Option<Address>) returns (ok: Outcome)
      requires Valid()
      modifies this`domainOperatorRelationshipMap, this`applyCount
      ensures ok == OutcomeOf(Ops.ApplyToOperator(old(Snapshot()), sender, domain, service, invitee))
      ensures Snapshot() == Commit(old(Snapshot()), Ops.ApplyToOperator(old(Snapshot()), sender, domain, service, invitee))
      ensures Valid()
    {
      if invitee.None? {
        return Fail("Invalid invitee.");
      }
      if service !in servicesEarningRulesMap {
        return Fail("Service not found.");
      }
      if domain in domainOperatorRelationshipMap {
        return Fail("Domain has Exist.");
      }
      var count := Count(applyCount, (sender, service));
      if !(count < maxApplyCount) {
        return Fail("Apply count exceed the limit.");
      }
      domainOperatorRelationshipMap := domainOperatorRelationshipMap[domain := DomainOperatorRelationship(domain, invitee.value, sender)];
      applyCount := applyCount[(sender, service) := count + 1];
      ok := Ok;
    }

    /** `PointsSettlement`: reports the outcome of `Registry.PointsSettlement` and, when it
        succeeds, leaves the state that step commits. On failure the host discards the credits
        made before the failing record. */
    method PointsSettlement(sender: Address, records: seq<PointsRecord>) returns (ok: Outcome)
      requires Valid()
      modifies this`pointsPool
      ensures ok == OutcomeOf(Ops.PointsSettlement(old(Snapshot()), sender, records))
      ensures ok.Ok? ==> Snapshot() == Ops.PointsSettlement(old(Snapshot()), sender, records).value
      ensures ok.Ok? ==> Valid()
      ensures (|| old(admin) != Some(sender) || |records| > old(maxRecordListCount)
               || (|records| > 0 && records[0].pointsName !in pointsInfos)) ==> unchanged(this)
    {
      if admin != Some(sender) {
        return Fail("No permission.");
      }
      if !(|records| <= maxRecordListCount) {
        return Fail("Invalid PointsRecords.");
      }
      ok := Settle(records);
    }

    /** The loop of `PointsSettlement`: checks each record's name and adds its amount to its
        pool entry. */
    method Settle(records: seq<PointsRecord>) returns (ok: Outcome)
      modifies this`pointsPool
      ensures ok == OutcomeOf(Ops.Settle(pointsInfos, old(pointsPool), records))
      ensures ok.Ok? ==> pointsPool == Ops.Settle(pointsInfos, old(pointsPool), records).value
      ensures |records| > 0 && records[0].pointsName !in pointsInfos ==> unchanged(this)
    {
      var i := 0;
      while i < |records|
        invariant 0 <= i <= |records|
        invariant i == 0 ==> unchanged(this)
        invariant i > 0 ==> records[0].pointsName in pointsInfos
        invariant Ops.Settle(pointsInfos, old(pointsPool), records) == Ops.Settle(pointsInfos, pointsPool, records[i..])
      {
        var record := records[i];
        if record.pointsName !in pointsInfos {
          return Fail("invalid PointsName:" + record.pointsName);
        }
        assert records[i..][1..] == records[i + 1..];
        var key := PoolKey(record.dappName, record.pointerAddress, record.pointsName);
        pointsPool := pointsPool[key := Count(pointsPool, key) + record.amount];
        i := i + 1;
      }
      ok := Ok;
    }

    /** `AssertValidCreateInput`: the message the checks abort with, or `None`. */
    method AssertValidCreateInput(tokenName: string, decimals: int) returns (err: Option<string>)
      ensures err == Ops.CreateInputError(Snapshot(), tokenName, decimals)
    {
      if !(0 < Utf16Length(tokenName) <= TokenNameLength && 0 <= decimals <= MaxDecimals) {
        return Some("Invalid input.");
      }
      var existing := if tokenName in pointInfos then Some(pointInfos[tokenName]) else None;
      if !(existing.None? || existing.value == EmptyPointInfo) {
        return Some("Point token already exists.");
      }
      return None;
    }

    /** `CreatePoint`: commits exactly what `Registry.CreatePoint` commits. */
    method CreatePoint(sender: Address, tokenName: string, decimals: int) returns (ok: Outcome)
      requires Valid()
      modifies this`pointInfos
      ensures ok == OutcomeOf(Ops.CreatePoint(old(Snapshot()), sender, tokenName, decimals))
      ensures Snapshot() == Commit(old(Snapshot()), Ops.CreatePoint(old(Snapshot()), sender, tokenName, decimals))
      ensures Valid()
    {
      var err := AssertAdminOperation(sender);
      if err.Some? {
        return Fail(err.value);
      }
      err := AssertValidCreateInput(tokenName, decimals);
      if err.Some? {
        return Fail(err.value);
      }
      pointInfos := pointInfos[tokenName := PointInfo(tokenName, decimals)];
      ok := Ok;
    }

    // -------------------------------------------------------------------------------------
    // PointsContract_Registration.cs

    /** `RecordRegistration`: reports the outcome of `Registry.RecordRegistration` and, when it
        succeeds, leaves the state that step commits. On failure the host discards the
        registrations stored before the failing record. */
    method RecordRegistration(sender: Address, groups: Option<seq<RegistrationRecords>>) returns (ok: Outcome)
      requires Valid()
      modifies this`registrationMap
      ensures ok == OutcomeOf(Ops.RecordRegistration(old(Snapshot()), sender, maxRegistrationListCount, groups))
      ensures ok.Ok? ==> Snapshot() == Ops.RecordRegistration(old(Snapshot()), sender, maxRegistrationListCount, groups).value
      ensures ok.Ok? ==> Valid()
      ensures (|| Ops.AdminGuard(old(Snapshot()), sender).Some?
               || !(groups.Some? && 0 < |groups.value| <= maxRegistrationListCount)
               || groups.value[0].service == "") ==> unchanged(this)
    {
      var err := AssertAdminOperation(sender);
      if err.Some? {
        return Fail(err.value);
      }
      if !(groups.Some? && 0 < |groups.value| <= maxRegistrationListCount) {
        return Fail("Invalid input.");
      }
      ghost var saved := Snapshot();
      ok := RegisterGroups(groups.value);
      if ok.Ok? {
        Ops.RecordRegistrationKeepsInv(saved, sender, maxRegistrationListCount, groups);
      }
    }

    /** The outer loop of `RecordRegistration`, one group after the other. */
    method RegisterGroups(groups: seq<RegistrationRecords>) returns (ok: Outcome)
      modifies this`registrationMap
      ensures ok == OutcomeOf(Ops.RegisterGroups(old(Snapshot()), groups))
      ensures ok.Ok? ==> Snapshot() == Ops.RegisterGroups(old(Snapshot()), groups).value
      ensures |groups| > 0 && groups[0].service == "" ==> unchanged(this)
    {
      var i := 0;
      while i < |groups|
        invariant 0 <= i <= |groups|
        invariant i == 0 ==> unchanged(this)
        invariant i > 0 ==> groups[0].service != ""
        invariant Ops.RegisterGroups(old(Snapshot()), groups) == Ops.RegisterGroups(Snapshot(), groups[i..])
      {
        var service := groups[i].service;
        if service == "" {
          return Fail("Service cannot be empty.");
        }
        assert groups[i..][1..] == groups[i + 1..];
        ok := RegisterDetails(service, Ops.Distinct(groups[i].details));
        if ok.Fail? {
          return;
        }
        i := i + 1;
      }
      ok := Ok;
    }

    /** The inner loop of `RecordRegistration`: checks and stores the first record of each
        registrant of one group. */
    method RegisterDetails(service: string, details: seq<RegistrationRecordDetail>) returns (ok: Outcome)
      modifies this`registrationMap
      ensures ok == OutcomeOf(Ops.RegisterDetails(old(Snapshot()), service, details))
      ensures ok.Ok? ==> Snapshot() == Ops.RegisterDetails(old(Snapshot()), service, details).value
      ensures |details| > 0 && Ops.DetailError(old(Snapshot()), details[0]).Some? ==> unchanged(this)
    {
      var i := 0;
      while i < |details|
        invariant 0 <= i <= |details|
        invariant i == 0 ==> unchanged(this)
        invariant i > 0 ==> Ops.DetailError(old(Snapshot()), details[0]).None?
        invariant Ops.RegisterDetails(old(Snapshot()), service, details)
                  == Ops.RegisterDetails(Snapshot(), service, details[i..])
      {
        var record := details[i];
        if record.domain == "" {
          return Fail("Domain cannot be empty.");
        }
        if IsNullOrEmptyAddress(record.registrant) {
          return Fail("Registrant address is empty.");
        }
        if record.createTime.None? {
          return Fail("CreateTime not set.");
        }
        if record.domain !in domainOperatorRelationshipMap {
          return Fail("Domain not exist.");
        }
        if (service, record.registrant.value) in registrationMap {
          return Fail("This user has already registered in " + service);
        }
        assert details[i..][1..] == details[i + 1..];
        registrationMap := registrationMap[(service, record.registrant.value) := RegistrationInfo(record.domain, record.createTime.value)];
        i := i + 1;
      }
      ok := Ok;
    }

    // -------------------------------------------------------------------------------------
    // PointsContract_Services.cs

    /** The validation loop of `SetServicesEarningRules`: the message of the first rule that
        fails a check, or `None` when every rule passes. */
    method CheckEarningRules(rules: seq<EarningRule>) returns (err: Option<string>)
      ensures err == Ops.EarningRulesError(Snapshot(), rules)
    {
      var i := 0;
      while i < |rules|
        invariant 0 <= i <= |rules|
        invariant forall j :: 0 <= j < i ==> Ops.EarningRuleError(Snapshot(), rules[j]).None?
      {
        var rule := rules[i];
        if rule.pointName == "" || rule.pointName !in pointInfos {
          err := Some("Wrong points information.");
        } else if rule.actionName == "" {
          err := Some("ActionName cannot be empty.");
        } else if !(rule.userPoints > 0 && rule.kolPoints > 0 && rule.inviterPoints > 0) {
          err := Some("Points must large than 0.");
        } else {
          err := None;
        }
        if err.Some? {
          Ops.FirstEarningRuleError(Snapshot(), rules, i);
          return;
        }
        i := i + 1;
      }
      return None;
    }

    /** `SetServicesEarningRules`: commits exactly what `Registry.SetServicesEarningRules` commits. */
    method SetServicesEarningRules(sender: Address, service: string, rules: Option<seq<EarningRule>>) returns (ok: Outcome)
      requires Valid()
      modifies this`servicesEarningRulesMap
      ensures ok == OutcomeOf(Ops.SetServicesEarningRules(old(Snapshot()), sender, service, rules))
      ensures Snapshot() == Commit(old(Snapshot()), Ops.SetServicesEarningRules(old(Snapshot()), sender, service, rules))
      ensures Valid()
    {
      var err := AssertAdminOperation(sender);
      if err.Some? {
        return Fail(err.value);
      }
      if rules.None? {
        return Fail("Invalid input.");
      }
      err := CheckEarningRules(rules.value);
      if err.Some? {
        return Fail(err.value);
      }
      servicesEarningRulesMap := servicesEarningRulesMap[service := rules.value];
      ok := Ok;
    }
  }
}
