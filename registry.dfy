/** The legacy service registry (PointsContract_Actions.cs, PointsContract_Registration.cs,
    PointsContract_Services.cs, PointsContract_View.cs, PointsContract_Helper.cs) as pure
    transaction steps over a `Registry`: each step returns the committed state or the message
    that aborted it, and the writes made before a failing `Assert` are discarded with it. */
module Registry {
  import opened Common
  import opened RegistryState

  // ---------------------------------------------------------------------------------------
  // PointsContract_Helper.cs

  /** `AssertInitialized`: the message it aborts with, or `None` when the flag is set. */
  function InitializedError(s: Registry): Option<string>
  {
    if s.initialized then None else Some("Not initialized.")
  }

  /** `AssertAdmin`: the message it aborts with, or `None` when the sender is the stored admin. */
  function AdminError(s: Registry, sender: Address): Option<string>
  {
    if s.admin == Some(sender) then None else Some("No permission.")
  }

  /** `AssertInitialized(); AssertAdmin();`, the prologue of every admin operation. */
  function AdminGuard(s: Registry, sender: Address): Option<string>
  {
    if InitializedError(s).Some? then InitializedError(s) else AdminError(s, sender)
  }

  // ---------------------------------------------------------------------------------------
  // PointsContract_Actions.cs

  /** `Initialize`: `isAuthor` is the verdict of the genesis contract's author lookup for the
      sender; `admin` is the optional admin of the input. */
  function Initialize(s: Registry, sender: Address, isAuthor: bool, maxRecordListCount: int, maxApplyCount: int,
                      admin: Option<Address>): Result<Registry>
  {
    if s.initialized then Failure("Already initialized.")
    else if !(maxRecordListCount > 0) then Failure("Invalid MaxRecordListCount.")
    else if !(maxApplyCount > 0) then Failure("Invalid MaxApplyCount.")
    else if !isAuthor then Failure("No permission.")
    else if !(admin.None? || |admin.value.value| > 0) then Failure("Invalid input admin.")
    else Success(s.(maxRecordListCount := maxRecordListCount, maxApplyCount := maxApplyCount,
                    admin := if admin.Some? then admin else Some(sender), initialized := true))
  }

  /** `Initialize` commits exactly once, when both limits are positive, the sender deployed the
      contract and the admin, if given, is not empty; it then sets the flag, the two limits and
      the admin, which defaults to the sender, and nothing else. */
  lemma InitializeEffect(s: Registry, sender: Address, isAuthor: bool, maxRecordListCount: int, maxApplyCount: int,
                         admin: Option<Address>)
    ensures Initialize(s, sender, isAuthor, maxRecordListCount, maxApplyCount, admin).Success?
        <==> && !s.initialized && maxRecordListCount > 0 && maxApplyCount > 0 && isAuthor
             && (admin.None? || |admin.value.value| > 0)
    ensures Initialize(s, sender, isAuthor, maxRecordListCount, maxApplyCount, admin).Success? ==>
              var r := Initialize(s, sender, isAuthor, maxRecordListCount, maxApplyCount, admin).value;
              && r.initialized
              && r.maxRecordListCount == maxRecordListCount && r.maxApplyCount == maxApplyCount
              && r.admin == (if admin.None? then Some(sender) else admin)
              && r == s.(initialized := r.initialized, admin := r.admin, maxRecordListCount := r.maxRecordListCount,
                         maxApplyCount := r.maxApplyCount)
  {
  }

  /** A second `Initialize` fails, whoever sends it. */
  lemma InitializeOnce(s: Registry, sender: Address, isAuthor: bool, maxRecordListCount: int, maxApplyCount: int,
                       admin: Option<Address>, sender2: Address, isAuthor2: bool, maxRecordListCount2: int,
                       maxApplyCount2: int, admin2: Option<Address>)
    requires Initialize(s, sender, isAuthor, maxRecordListCount, maxApplyCount, admin).Success?
    ensures Initialize(Initialize(s, sender, isAuthor, maxRecordListCount, maxApplyCount, admin).value,
                       sender2, isAuthor2, maxRecordListCount2, maxApplyCount2, admin2)
            == Failure("Already initialized.")
  {
  }

  /** `SetAdmin`: the admin hands the role to a non-empty address. */
  function SetAdmin(s: Registry, sender: Address, input: Address): Result<Registry>
  {
    if AdminGuard(s, sender).Some? then Failure(AdminGuard(s, sender).value)
    else if |input.value| == 0 then Failure("Invalid input.")
    else Success(s.(admin := Some(input)))
  }

  /** `SetReservedDomainList`: the admin stores a non-empty reserved list; `list` is the
      `ReservedDomainList` message, which may be absent. */
  function SetReservedDomainList(s: Registry, sender: Address, list: Option<seq<string>>): Result<Registry>
  {
    if AdminGuard(s, sender).Some? then Failure(AdminGuard(s, sender).value)
    else if !(list.Some? && |list.value| > 0) then Failure("Invalid reserved domain list count.")
    else Success(s.(reservedDomains := list))
  }

  function SetMaxRecordListCount(s: Registry, sender: Address, value: int): Result<Registry>
  {
    if AdminGuard(s, sender).Some? then Failure(AdminGuard(s, sender).value)
    else if !(value > 0) then Failure("Invalid input.")
    else Success(s.(maxRecordListCount := value))
  }

  function SetMaxApplyCount(s: Registry, sender: Address, value: int): Result<Registry>
  {
    if AdminGuard(s, sender).Some? then Failure(AdminGuard(s, sender).value)
    else if !(value > 0) then Failure("Invalid input.")
    else Success(s.(maxApplyCount := value))
  }

  /** `ApplyToOperator`: the sender applies for an operator domain of a service on behalf of
      `invitee`, within its quota for that service. */
  function ApplyToOperator(s: Registry, sender: Address, domain: string, service: string,
                           invitee: Option<Address>): Result<Registry>
  {
    if invitee.None? then Failure("Invalid invitee.")
    else if service !in s.servicesEarningRulesMap then Failure("Service not found.")
    else if domain in s.domainOperatorRelationshipMap then Failure("Domain has Exist.")
    else if !(Count(s.applyCount, (sender, service)) < s.maxApplyCount) then Failure("Apply count exceed the limit.")
    else Success(s.(domainOperatorRelationshipMap := s.domainOperatorRelationshipMap[
                      domain := DomainOperatorRelationship(domain, invitee.value, sender)],
                    applyCount := Increment(s.applyCount, (sender, service))))
  }

  /** `ApplyToOperator` commits exactly when the invitee is given, the service has earning rules,
      the domain is unused and the sender's count for the service is below `MaxApplyCount`; it
      then records the domain with the sender as its inviter and raises that count by one. */
  lemma ApplyToOperatorEffect(s: Registry, sender: Address, domain: string, service: string, invitee: Option<Address>)
    ensures ApplyToOperator(s, sender, domain, service, invitee).Success?
        <==> && invitee.Some? && service in s.servicesEarningRulesMap && domain !in s.domainOperatorRelationshipMap
             && Count(s.applyCount, (sender, service)) < s.maxApplyCount
    ensures ApplyToOperator(s, sender, domain, service, invitee).Success? ==>
              var r := ApplyToOperator(s, sender, domain, service, invitee).value;
              && r == s.(domainOperatorRelationshipMap := r.domainOperatorRelationshipMap, applyCount := r.applyCount)
              && r.domainOperatorRelationshipMap.Keys == s.domainOperatorRelationshipMap.Keys + {domain}
              && r.domainOperatorRelationshipMap[domain] == DomainOperatorRelationship(domain, invitee.value, sender)
              && (forall d :: d in s.domainOperatorRelationshipMap ==>
                    r.domainOperatorRelationshipMap[d] == s.domainOperatorRelationshipMap[d])
              && Count(r.applyCount, (sender, service)) == Count(s.applyCount, (sender, service)) + 1
              && (forall k :: k != (sender, service) ==> Count(r.applyCount, k) == Count(s.applyCount, k))
  {
  }

  /** A domain is given out once: applying again for a domain a committed application holds fails. */
  lemma ApplyToOperatorDomainOnce(s: Registry, sender: Address, domain: string, service: string,
                                  invitee: Option<Address>, sender2: Address, service2: string, invitee2: Option<Address>)
    requires ApplyToOperator(s, sender, domain, service, invitee).Success?
    requires invitee2.Some? && service2 in s.servicesEarningRulesMap
    ensures ApplyToOperator(ApplyToOperator(s, sender, domain, service, invitee).value, sender2, domain, service2, invitee2)
            == Failure("Domain has Exist.")
  {
  }

  /** The quota: once a sender has `MaxApplyCount` applications for a service, every further
      application of it for that service fails, whatever else holds. */
  lemma ApplyToOperatorQuota(s: Registry, sender: Address, domain: string, service: string, invitee: Address)
    requires service in s.servicesEarningRulesMap && domain !in s.domainOperatorRelationshipMap
    requires Count(s.applyCount, (sender, service)) >= s.maxApplyCount
    ensures ApplyToOperator(s, sender, domain, service, Some(invitee)) == Failure("Apply count exceed the limit.")
  {
  }

  /** The sum of the amounts of the records that credit `k`. */
  function AmountFor(records: seq<PointsRecord>, k: PoolKey): int
  {
    if |records| == 0 then 0
    else (if PoolKey(records[0].dappName, records[0].pointerAddress, records[0].pointsName) == k then records[0].amount else 0)
         + AmountFor(records[1..], k)
  }

  /** The loop of `PointsSettlement`: each record's name must be a known points name, and its
      amount is added to the pool entry of its (dapp, address, name). */
  function Settle(pointsInfos: map<string, PointInfo>, pool: map<PoolKey, int>, records: seq<PointsRecord>)
    : (r: Result<map<PoolKey, int>>)
    decreases |records|
    ensures r.Success? <==> forall i :: 0 <= i < |records| ==> records[i].pointsName in pointsInfos
    ensures r.Success? ==> forall k :: Count(r.value, k) == Count(pool, k) + AmountFor(records, k)
  {
    if |records| == 0 then Success(pool)
    else
      var record := records[0];
      if record.pointsName !in pointsInfos then Failure("invalid PointsName:" + record.pointsName)
      else
        var key := PoolKey(record.dappName, record.pointerAddress, record.pointsName);
        var r := Settle(pointsInfos, pool[key := Count(pool, key) + record.amount], records[1..]);
        assert (forall i :: 0 <= i < |records| ==> records[i].pointsName in pointsInfos)
           <==> (forall i :: 0 <= i < |records[1..]| ==> records[1..][i].pointsName in pointsInfos) by {
          forall i | 1 <= i < |records| ensures records[i] == records[1..][i - 1] { }
        }
        r
  }

  /** `PointsSettlement`: the admin credits a batch of at most `MaxRecordListCount` records. */
  function PointsSettlement(s: Registry, sender: Address, records: seq<PointsRecord>): Result<Registry>
  {
    if AdminError(s, sender).Some? then Failure(AdminError(s, sender).value)
    else if !(|records| <= s.maxRecordListCount) then Failure("Invalid PointsRecords.")
    else match Settle(s.pointsInfos, s.pointsPool, records)
      case Failure(e) => Failure(e)
      case Success(pool) => Success(s.(pointsPool := pool))
  }

  /** `PointsSettlement` commits exactly when the sender is the admin, the batch is within the
      limit and every name is known; each pool entry then grows by the sum of the amounts of the
      records for it, so repeated keys accumulate, and nothing else changes. */
  lemma PointsSettlementEffect(s: Registry, sender: Address, records: seq<PointsRecord>)
    ensures PointsSettlement(s, sender, records).Success?
        <==> && s.admin == Some(sender) && |records| <= s.maxRecordListCount
             && forall i :: 0 <= i < |records| ==> records[i].pointsName in s.pointsInfos
    ensures PointsSettlement(s, sender, records).Success? ==>
              var r := PointsSettlement(s, sender, records).value;
              && r == s.(pointsPool := r.pointsPool)
              && forall k :: PoolBalance(r, k) == PoolBalance(s, k) + AmountFor(records, k)
  {
  }

  /** A record with an unknown points name aborts the whole batch, whatever its position. */
  lemma PointsSettlementRejectsUnknownName(s: Registry, sender: Address, records: seq<PointsRecord>, i: int)
    requires 0 <= i < |records| && records[i].pointsName !in s.pointsInfos
    ensures PointsSettlement(s, sender, records).Failure?
  {
    PointsSettlementEffect(s, sender, records);
  }

  /** Credits split over two batches add up to the credits of the joined batch. */
  lemma {:induction false} AmountForAppend(a: seq<PointsRecord>, b: seq<PointsRecord>, k: PoolKey)
    ensures AmountFor(a + b, k) == AmountFor(a, k) + AmountFor(b, k)
  {
    if |a| == 0 {
      assert a + b == b;
    } else {
      assert (a + b)[1..] == a[1..] + b;
      AmountForAppend(a[1..], b, k);
    }
  }

  /** With non-negative amounts a settlement never lowers a balance. */
  lemma {:induction false} AmountForNonNegative(records: seq<PointsRecord>, k: PoolKey)
    requires forall i :: 0 <= i < |records| ==> records[i].amount >= 0
    ensures AmountFor(records, k) >= 0
  {
    if |records| > 0 {
      AmountForNonNegative(records[1..], k);
    }
  }

  /** `AssertValidCreateInput` of this revision: the message it aborts with, or `None`. */
  function CreateInputError(s: Registry, tokenName: string, decimals: int): Option<string>
  {
    if !(0 < Utf16Length(tokenName) <= TokenNameLength && 0 <= decimals <= MaxDecimals) then Some("Invalid input.")
    else if tokenName in s.pointInfos && s.pointInfos[tokenName] != EmptyPointInfo then Some("Point token already exists.")
    else None
  }

  /** `CreatePoint` of this revision: the admin registers a points token by name. */
  function CreatePoint(s: Registry, sender: Address, tokenName: string, decimals: int): Result<Registry>
  {
    if AdminGuard(s, sender).Some? then Failure(AdminGuard(s, sender).value)
    else if CreateInputError(s, tokenName, decimals).Some? then Failure(CreateInputError(s, tokenName, decimals).value)
    else Success(s.(pointInfos := s.pointInfos[tokenName := PointInfo(tokenName, decimals)]))
  }

  /** `CreatePoint` commits exactly when the admin guard passes, the name has 1 to 80 UTF-16 code
      units, the decimals are 0 to 18 and the name is not taken; it then stores exactly that token. */
  lemma CreatePointEffect(s: Registry, sender: Address, tokenName: string, decimals: int)
    ensures CreatePoint(s, sender, tokenName, decimals).Success?
        <==> && s.initialized && s.admin == Some(sender)
             && 0 < Utf16Length(tokenName) <= 80 && 0 <= decimals <= 18
             && (tokenName in s.pointInfos ==> s.pointInfos[tokenName] == PointInfo("", 0))
    ensures CreatePoint(s, sender, tokenName, decimals).Success? ==>
              CreatePoint(s, sender, tokenName, decimals).value
              == s.(pointInfos := s.pointInfos[tokenName := PointInfo(tokenName, decimals)])
  {
  }

  /** A name can be created once. */
  lemma CreatePointTwiceFails(s: Registry, sender: Address, tokenName: string, decimals: int, decimals2: int)
    requires CreatePoint(s, sender, tokenName, decimals).Success? && 0 <= decimals2 <= 18
    ensures CreatePoint(CreatePoint(s, sender, tokenName, decimals).value, sender, tokenName, decimals2)
            == Failure("Point token already exists.")
  {
  }

  /** Every admin operation fails with "Not initialized." before `Initialize`, and with
      "No permission." for a sender that is not the admin. */
  lemma AdminOperationsGuarded(s: Registry, sender: Address, admin: Address, list: Option<seq<string>>, value: int,
                               tokenName: string, decimals: int, service: string,
                               rules: Option<seq<EarningRule>>, maxRegistrationListCount: int,
                               groups: Option<seq<RegistrationRecords>>)
    requires !s.initialized || s.admin != Some(sender)
    ensures var e := if !s.initialized then "Not initialized." else "No permission.";
            && SetAdmin(s, sender, admin) == Failure(e)
            && SetReservedDomainList(s, sender, list) == Failure(e)
            && SetMaxRecordListCount(s, sender, value) == Failure(e)
            && SetMaxApplyCount(s, sender, value) == Failure(e)
            && CreatePoint(s, sender, tokenName, decimals) == Failure(e)
            && SetServicesEarningRules(s, sender, service, rules) == Failure(e)
            && RecordRegistration(s, sender, maxRegistrationListCount, groups) == Failure(e)
  {
  }

  // ---------------------------------------------------------------------------------------
  // PointsContract_Registration.cs

  /** `DistinctBy(i => i.Registrant)` over the records of a group, skipping the registrants in
      `seen`: keeps the first record of every registrant, in order. */
  function DistinctFrom(details: seq<RegistrationRecordDetail>, seen: set<Option<Address>>)
    : (r: seq<RegistrationRecordDetail>)
    ensures forall i :: 0 <= i < |r| ==> r[i] in details && r[i].registrant !in seen
    ensures forall i, j :: 0 <= i < j < |r| ==> r[i].registrant != r[j].registrant
    ensures forall i :: 0 <= i < |details| && details[i].registrant !in seen
                        && (forall j :: 0 <= j < i ==> details[j].registrant != details[i].registrant)
                        ==> details[i] in r
  {
    if |details| == 0 then []
    else if details[0].registrant in seen then
      var r := DistinctFrom(details[1..], seen);
      assert forall i :: 1 <= i < |details| ==> details[i] == details[1..][i - 1];
      r
    else
      var rest := DistinctFrom(details[1..], seen + {details[0].registrant});
      assert forall i :: 1 <= i < |details| ==> details[i] == details[1..][i - 1];
      [details[0]] + rest
  }

  /** The records of a group that `RecordRegistration` processes: the first one of each registrant. */
  function Distinct(details: seq<RegistrationRecordDetail>): seq<RegistrationRecordDetail>
  {
    DistinctFrom(details, {})
  }

  /** A repeated registrant is dropped: appending a record for a registrant the group already
      has leaves the processed records unchanged. */
  lemma {:induction false} DistinctFromIgnoresRepeat(details: seq<RegistrationRecordDetail>, seen: set<Option<Address>>,
                                                     d: RegistrationRecordDetail)
    requires d.registrant in seen || exists i :: 0 <= i < |details| && details[i].registrant == d.registrant
    ensures DistinctFrom(details + [d], seen) == DistinctFrom(details, seen)
  {
    if |details| == 0 {
      assert [d][1..] == [];
    } else {
      assert (details + [d])[1..] == details[1..] + [d];
      if details[0].registrant in seen {
        if d.registrant !in seen {
          var i :| 0 <= i < |details| && details[i].registrant == d.registrant;
          assert i > 0 && details[1..][i - 1].registrant == d.registrant;
        }
        DistinctFromIgnoresRepeat(details[1..], seen, d);
      } else {
        var seen' := seen + {details[0].registrant};
        if d.registrant !in seen' {
          var i :| 0 <= i < |details| && details[i].registrant == d.registrant;
          assert i > 0 && details[1..][i - 1].registrant == d.registrant;
        }
        DistinctFromIgnoresRepeat(details[1..], seen', d);
      }
    }
  }

  lemma DistinctIgnoresRepeat(details: seq<RegistrationRecordDetail>, d: RegistrationRecordDetail)
    requires exists i :: 0 <= i < |details| && details[i].registrant == d.registrant
    ensures Distinct(details + [d]) == Distinct(details)
  {
    DistinctFromIgnoresRepeat(details, {}, d);
  }

  /** The checks of a record that do not depend on earlier records of the batch. */
  function DetailError(s: Registry, d: RegistrationRecordDetail): Option<string>
  {
    if d.domain == "" then Some("Domain cannot be empty.")
    else if IsNullOrEmptyAddress(d.registrant) then Some("Registrant address is empty.")
    else if d.createTime.None? then Some("CreateTime not set.")
    else if d.domain !in s.domainOperatorRelationshipMap then Some("Domain not exist.")
    else None
  }

  /** The write-once check: the message when the registrant is already registered in the service. */
  function RegisteredError(s: Registry, service: string, d: RegistrationRecordDetail): Option<string>
    requires d.registrant.Some?
  {
    if (service, d.registrant.value) in s.registrationMap
    then Some("This user has already registered in " + service)
    else None
  }

  /** The inner loop of `RecordRegistration`: checks and stores each record in turn. */
  function RegisterDetails(s: Registry, service: string, details: seq<RegistrationRecordDetail>): Result<Registry>
    decreases |details|
  {
    if |details| == 0 then Success(s)
    else
      var d := details[0];
      if DetailError(s, d).Some? then Failure(DetailError(s, d).value)
      else if RegisteredError(s, service, d).Some? then Failure(RegisteredError(s, service, d).value)
      else RegisterDetails(s.(registrationMap := s.registrationMap[(service, d.registrant.value) := RegistrationInfo(d.domain, d.createTime.value)]),
                           service, details[1..])
  }

  /** The outer loop of `RecordRegistration`: one group after the other. */
  function RegisterGroups(s: Registry, groups: seq<RegistrationRecords>): Result<Registry>
    decreases |groups|
  {
    if |groups| == 0 then Success(s)
    else if groups[0].service == "" then Failure("Service cannot be empty.")
    else match RegisterDetails(s, groups[0].service, Distinct(groups[0].details))
      case Failure(e) => Failure(e)
      case Success(s1) => RegisterGroups(s1, groups[1..])
  }

  /** `RecordRegistration`: the admin records a batch of 1 to `maxRegistrationListCount` groups;
      `groups` is the `RegistrationRecordList` message, which may be absent. */
  function RecordRegistration(s: Registry, sender: Address, maxRegistrationListCount: int,
                              groups: Option<seq<RegistrationRecords>>): Result<Registry>
  {
    if AdminGuard(s, sender).Some? then Failure(AdminGuard(s, sender).value)
    else if !(groups.Some? && 0 < |groups.value| <= maxRegistrationListCount) then Failure("Invalid input.")
    else RegisterGroups(s, groups.value)
  }

  /** What a committed inner loop did: every processed record passed its checks and is stored
      with exactly its domain and creation time, every earlier entry is kept, and nothing but the
      registration map changed. */
  lemma {:induction false} RegisterDetailsEffect(s: Registry, service: string, details: seq<RegistrationRecordDetail>,
                                                 r: Registry)
    requires RegisterDetails(s, service, details) == Success(r)
    decreases |details|
    ensures r == s.(registrationMap := r.registrationMap)
    ensures forall k :: k in s.registrationMap ==> k in r.registrationMap && r.registrationMap[k] == s.registrationMap[k]
    ensures forall i :: 0 <= i < |details| ==>
              && DetailError(s, details[i]).None?
              && (service, details[i].registrant.value) !in s.registrationMap
              && (service, details[i].registrant.value) in r.registrationMap
              && r.registrationMap[(service, details[i].registrant.value)]
                 == RegistrationInfo(details[i].domain, details[i].createTime.value)
    ensures forall k :: k in r.registrationMap && k !in s.registrationMap ==>
              exists i :: 0 <= i < |details| && details[i].registrant.Some? && k == (service, details[i].registrant.value)
  {
    if |details| > 0 {
      var d := details[0];
      var s1 := s.(registrationMap := s.registrationMap[(service, d.registrant.value) := RegistrationInfo(d.domain, d.createTime.value)]);
      RegisterDetailsEffect(s1, service, details[1..], r);
      forall i | 0 <= i < |details|
        ensures && DetailError(s, details[i]).None?
                && (service, details[i].registrant.value) !in s.registrationMap
                && (service, details[i].registrant.value) in r.registrationMap
                && r.registrationMap[(service, details[i].registrant.value)]
                   == RegistrationInfo(details[i].domain, details[i].createTime.value)
      {
        if i > 0 {
          assert details[i] == details[1..][i - 1];
        }
      }
      forall k | k in r.registrationMap && k !in s.registrationMap
        ensures exists i :: 0 <= i < |details| && details[i].registrant.Some? && k == (service, details[i].registrant.value)
      {
        if k != (service, d.registrant.value) {
          var i :| 0 <= i < |details[1..]| && details[1..][i].registrant.Some? && k == (service, details[1..][i].registrant.value);
          assert details[1..][i] == details[i + 1];
        }
      }
    }
  }

  /** `ds`, processed for `service` from state `s`, ended up in `r`: every record passed its
      checks against `s`, its registrant was not yet registered in the service, and it is stored
      with exactly its domain and creation time. */
  ghost predicate Stored(s: Registry, r: Registry, service: string, ds: seq<RegistrationRecordDetail>)
  {
    forall d :: d in ds ==>
      && DetailError(s, d).None?
      && (service, d.registrant.value) !in s.registrationMap
      && (service, d.registrant.value) in r.registrationMap
      && r.registrationMap[(service, d.registrant.value)] == RegistrationInfo(d.domain, d.createTime.value)
  }

  /** `r` keeps every entry of `s` and differs from it in the registration map only. */
  ghost predicate Extends(s: Registry, r: Registry)
  {
    && r == s.(registrationMap := r.registrationMap)
    && forall k :: k in s.registrationMap ==> k in r.registrationMap && r.registrationMap[k] == s.registrationMap[k]
  }

  /** Every registration `r` has and `s` has not is that of a record the batch processed, under
      its group's service. */
  ghost predicate AddsOnlyProcessed(s: Registry, r: Registry, groups: seq<RegistrationRecords>)
  {
    forall k :: k in r.registrationMap && k !in s.registrationMap ==>
      exists g, d :: 0 <= g < |groups| && d in Distinct(groups[g].details) && d.registrant.Some?
                     && k == (groups[g].service, d.registrant.value)
  }

  /** A committed outer loop adds no registration beyond those of its processed records. */
  lemma {:induction false} RegisterGroupsAddsOnlyProcessed(s: Registry, groups: seq<RegistrationRecords>, r: Registry)
    requires RegisterGroups(s, groups) == Success(r)
    decreases |groups|
    ensures AddsOnlyProcessed(s, r, groups)
  {
    if |groups| > 0 {
      var ds := Distinct(groups[0].details);
      var s1 := RegisterDetails(s, groups[0].service, ds).value;
      RegisterGroupsAddsOnlyProcessed(s1, groups[1..], r);
      RegisterDetailsEffect(s, groups[0].service, ds, s1);
      forall k | k in r.registrationMap && k !in s.registrationMap
        ensures exists g, d :: 0 <= g < |groups| && d in Distinct(groups[g].details) && d.registrant.Some?
                               && k == (groups[g].service, d.registrant.value)
      {
        if k in s1.registrationMap {
          var i :| 0 <= i < |ds| && ds[i].registrant.Some? && k == (groups[0].service, ds[i].registrant.value);
          assert ds[i] in Distinct(groups[0].details);
        } else {
          var g, d :| 0 <= g < |groups[1..]| && d in Distinct(groups[1..][g].details) && d.registrant.Some?
                      && k == (groups[1..][g].service, d.registrant.value);
          assert groups[1..][g] == groups[g + 1];
        }
      }
    }
  }

  /** A group stored into `s1` stays stored in any later state `r`. */
  lemma StoredFirst(s: Registry, s1: Registry, r: Registry, service: string, ds: seq<RegistrationRecordDetail>)
    requires RegisterDetails(s, service, ds) == Success(s1) && Extends(s1, r)
    ensures Extends(s, s1) && Stored(s, r, service, ds)
  {
    RegisterDetailsEffect(s, service, ds, s1);
    forall d | d in ds
      ensures && DetailError(s, d).None?
              && (service, d.registrant.value) !in s.registrationMap
              && (service, d.registrant.value) in r.registrationMap
              && r.registrationMap[(service, d.registrant.value)] == RegistrationInfo(d.domain, d.createTime.value)
    {
      var i :| 0 <= i < |ds| && ds[i] == d;
    }
  }

  /** A group stored from `s1`, a state that extends `s`, is stored from `s` too. */
  lemma StoredLater(s: Registry, s1: Registry, r: Registry, service: string, ds: seq<RegistrationRecordDetail>)
    requires Extends(s, s1) && Stored(s1, r, service, ds)
    ensures Stored(s, r, service, ds)
  {
    forall d | d in ds
      ensures && DetailError(s, d).None?
              && (service, d.registrant.value) !in s.registrationMap
    {
      assert DetailError(s1, d) == DetailError(s, d);
    }
  }

  /** What a committed outer loop did: every group names its service, every processed record
      passed its checks against the state before the batch and is stored with exactly its domain
      and creation time, every earlier entry is kept, and nothing but the registration map
      changed. */
  lemma {:induction false} RegisterGroupsEffect(s: Registry, groups: seq<RegistrationRecords>, r: Registry)
    requires RegisterGroups(s, groups) == Success(r)
    decreases |groups|
    ensures Extends(s, r)
    ensures forall g :: 0 <= g < |groups| ==>
              groups[g].service != "" && Stored(s, r, groups[g].service, Distinct(groups[g].details))
    ensures AddsOnlyProcessed(s, r, groups)
  {
    RegisterGroupsAddsOnlyProcessed(s, groups, r);
    if |groups| > 0 {
      var ds := Distinct(groups[0].details);
      var s1 := RegisterDetails(s, groups[0].service, ds).value;
      RegisterGroupsEffect(s1, groups[1..], r);
      StoredFirst(s, s1, r, groups[0].service, ds);
      forall g | 1 <= g < |groups|
        ensures groups[g].service != "" && Stored(s, r, groups[g].service, Distinct(groups[g].details))
      {
        assert groups[g] == groups[1..][g - 1];
        StoredLater(s, s1, r, groups[g].service, Distinct(groups[g].details));
      }
    }
  }

  /** No registrant is processed twice for one service: two groups of the same service share no
      registrant among their processed records. */
  ghost predicate RegistrantsDistinctAcrossGroups(groups: seq<RegistrationRecords>)
  {
    forall g1, g2, d1, d2 :: 0 <= g1 < g2 < |groups| && groups[g1].service == groups[g2].service
                             && d1 in Distinct(groups[g1].details) && d2 in Distinct(groups[g2].details)
                             ==> d1.registrant != d2.registrant
  }

  /** A registrant processed in the first group of a committed batch is not processed again in
      a later group of the same service. */
  lemma FirstGroupNotRepeated(s: Registry, groups: seq<RegistrationRecords>, r: Registry, g2: int,
                              d1: RegistrationRecordDetail, d2: RegistrationRecordDetail)
    requires RegisterGroups(s, groups) == Success(r)
    requires 0 < g2 < |groups| && groups[0].service == groups[g2].service
    requires d1 in Distinct(groups[0].details) && d2 in Distinct(groups[g2].details)
    ensures d1.registrant != d2.registrant
  {
    var ds := Distinct(groups[0].details);
    var s1 := RegisterDetails(s, groups[0].service, ds).value;
    StoredFirst(s, s1, s1, groups[0].service, ds);
    assert (groups[0].service, d1.registrant.value) in s1.registrationMap;
    RegisterGroupsEffect(s1, groups[1..], r);
    assert groups[1..][g2 - 1] == groups[g2];
    assert Stored(s1, r, groups[g2].service, Distinct(groups[g2].details));
    assert (groups[g2].service, d2.registrant.value) !in s1.registrationMap;
  }

  /** Because each record is checked against the registrations stored before it, a committed
      outer loop never processed one registrant twice for the same service. */
  lemma {:induction false} RegisterGroupsDistinct(s: Registry, groups: seq<RegistrationRecords>, r: Registry)
    requires RegisterGroups(s, groups) == Success(r)
    decreases |groups|
    ensures RegistrantsDistinctAcrossGroups(groups)
  {
    if |groups| > 0 {
      var s1 := RegisterDetails(s, groups[0].service, Distinct(groups[0].details)).value;
      RegisterGroupsDistinct(s1, groups[1..], r);
      forall g1, g2, d1, d2 | 0 <= g1 < g2 < |groups| && groups[g1].service == groups[g2].service
                              && d1 in Distinct(groups[g1].details) && d2 in Distinct(groups[g2].details)
        ensures d1.registrant != d2.registrant
      {
        if g1 == 0 {
          FirstGroupNotRepeated(s, groups, r, g2, d1, d2);
        } else {
          assert groups[g1] == groups[1..][g1 - 1] && groups[g2] == groups[1..][g2 - 1];
        }
      }
    }
  }

  /** The inner loop commits when the registrants are pairwise distinct and each record passes
      its checks against the state before the loop. */
  lemma {:induction false} RegisterDetailsSucceeds(s: Registry, service: string, details: seq<RegistrationRecordDetail>)
    requires forall i, j :: 0 <= i < j < |details| ==> details[i].registrant != details[j].registrant
    requires forall d :: d in details ==>
               DetailError(s, d).None? && (service, d.registrant.value) !in s.registrationMap
    decreases |details|
    ensures RegisterDetails(s, service, details).Success?
  {
    if |details| > 0 {
      var d := details[0];
      var s1 := s.(registrationMap := s.registrationMap[(service, d.registrant.value) := RegistrationInfo(d.domain, d.createTime.value)]);
      forall i | 0 <= i < |details[1..]|
        ensures DetailError(s1, details[1..][i]).None? && (service, details[1..][i].registrant.value) !in s1.registrationMap
      {
        assert details[1..][i] == details[i + 1];
        assert details[i + 1] in details;
        assert DetailError(s1, details[i + 1]) == DetailError(s, details[i + 1]);
      }
      RegisterDetailsSucceeds(s1, service, details[1..]);
    }
  }

  /** A record that passed its checks before a group was stored still passes them afterwards,
      unless that group processed its registrant for the same service. */
  lemma LaterRecordStillFree(s: Registry, service0: string, ds: seq<RegistrationRecordDetail>, s1: Registry,
                             service: string, d: RegistrationRecordDetail)
    requires RegisterDetails(s, service0, ds) == Success(s1)
    requires DetailError(s, d).None? && (service, d.registrant.value) !in s.registrationMap
    requires service0 == service ==> forall d1 :: d1 in ds ==> d1.registrant != d.registrant
    ensures DetailError(s1, d).None? && (service, d.registrant.value) !in s1.registrationMap
  {
    RegisterDetailsEffect(s, service0, ds, s1);
    assert DetailError(s1, d) == DetailError(s, d);
    forall i | 0 <= i < |ds| && ds[i].registrant.Some?
      ensures (service, d.registrant.value) != (service0, ds[i].registrant.value)
    {
      assert ds[i] in ds;
    }
  }

  /** The outer loop commits when every group names its service, every processed record passes
      its checks against the state before the batch, and no registrant is processed twice for
      one service. */
  lemma {:induction false} RegisterGroupsSucceeds(s: Registry, groups: seq<RegistrationRecords>)
    requires forall g :: 0 <= g < |groups| ==> groups[g].service != ""
    requires forall g, d :: 0 <= g < |groups| && d in Distinct(groups[g].details) ==>
               DetailError(s, d).None? && (groups[g].service, d.registrant.value) !in s.registrationMap
    requires RegistrantsDistinctAcrossGroups(groups)
    decreases |groups|
    ensures RegisterGroups(s, groups).Success?
  {
    if |groups| > 0 {
      var ds := Distinct(groups[0].details);
      RegisterDetailsSucceeds(s, groups[0].service, ds);
      var s1 := RegisterDetails(s, groups[0].service, ds).value;
      var rest := groups[1..];
      forall g, d | 0 <= g < |rest| && d in Distinct(rest[g].details)
        ensures DetailError(s1, d).None? && (rest[g].service, d.registrant.value) !in s1.registrationMap
      {
        assert rest[g] == groups[g + 1];
        LaterRecordStillFree(s, groups[0].service, ds, s1, rest[g].service, d);
      }
      forall g1, g2, d1, d2 | 0 <= g1 < g2 < |rest| && rest[g1].service == rest[g2].service
                              && d1 in Distinct(rest[g1].details) && d2 in Distinct(rest[g2].details)
        ensures d1.registrant != d2.registrant
      {
        assert rest[g1] == groups[g1 + 1] && rest[g2] == groups[g2 + 1];
      }
      RegisterGroupsSucceeds(s1, rest);
    }
  }

  /** `RecordRegistration` commits only for an admin of an initialised contract and a batch of 1
      to `maxRegistrationListCount` groups, each naming its service; then the first record of
      every registrant of every group passed its checks (non-empty domain and registrant, a
      creation time, an existing operator domain, no earlier registration in the service) and is
      stored with exactly its domain and creation time, earlier registrations are kept, and
      nothing else changes. */
  lemma RecordRegistrationEffect(s: Registry, sender: Address, maxRegistrationListCount: int,
                                 groups: Option<seq<RegistrationRecords>>, r: Registry)
    requires RecordRegistration(s, sender, maxRegistrationListCount, groups) == Success(r)
    ensures s.initialized && s.admin == Some(sender)
    ensures groups.Some? && 0 < |groups.value| <= maxRegistrationListCount
    ensures forall g :: 0 <= g < |groups.value| ==> groups.value[g].service != ""
    ensures r == s.(registrationMap := r.registrationMap)
    ensures forall k :: k in s.registrationMap ==> k in r.registrationMap && r.registrationMap[k] == s.registrationMap[k]
    ensures forall g, d :: 0 <= g < |groups.value| && d in Distinct(groups.value[g].details) ==>
              && d.domain != "" && !IsNullOrEmptyAddress(d.registrant) && d.createTime.Some?
              && d.domain in s.domainOperatorRelationshipMap
              && (groups.value[g].service, d.registrant.value) !in s.registrationMap
              && (groups.value[g].service, d.registrant.value) in r.registrationMap
              && r.registrationMap[(groups.value[g].service, d.registrant.value)] == RegistrationInfo(d.domain, d.createTime.value)
    ensures RegistrantsDistinctAcrossGroups(groups.value)
    ensures forall k :: k in r.registrationMap && k !in s.registrationMap ==>
              exists g, d :: 0 <= g < |groups.value| && d in Distinct(groups.value[g].details) && d.registrant.Some?
                             && k == (groups.value[g].service, d.registrant.value)
  {
    RegisterGroupsEffect(s, groups.value, r);
    RegisterGroupsDistinct(s, groups.value, r);
    forall g, d | 0 <= g < |groups.value| && d in Distinct(groups.value[g].details)
      ensures && d.domain != "" && !IsNullOrEmptyAddress(d.registrant) && d.createTime.Some?
              && d.domain in s.domainOperatorRelationshipMap
              && (groups.value[g].service, d.registrant.value) !in s.registrationMap
              && (groups.value[g].service, d.registrant.value) in r.registrationMap
              && r.registrationMap[(groups.value[g].service, d.registrant.value)] == RegistrationInfo(d.domain, d.createTime.value)
    {
      assert Stored(s, r, groups.value[g].service, Distinct(groups.value[g].details));
    }
  }

  /** The converse of `RecordRegistrationEffect`: a batch whose conditions all hold commits. */
  lemma RecordRegistrationSucceeds(s: Registry, sender: Address, maxRegistrationListCount: int,
                                   groups: seq<RegistrationRecords>)
    requires s.initialized && s.admin == Some(sender)
    requires 0 < |groups| <= maxRegistrationListCount
    requires forall g :: 0 <= g < |groups| ==> groups[g].service != ""
    requires forall g, d :: 0 <= g < |groups| && d in Distinct(groups[g].details) ==>
               DetailError(s, d).None? && (groups[g].service, d.registrant.value) !in s.registrationMap
    requires RegistrantsDistinctAcrossGroups(groups)
    ensures RecordRegistration(s, sender, maxRegistrationListCount, Some(groups)).Success?
  {
    RegisterGroupsSucceeds(s, groups);
  }

  /** A registrant that appears in two groups of the same service makes the batch fail, even
      when neither record fails a check of its own. */
  lemma RecordRegistrationRejectsCrossGroupRepeat(s: Registry, sender: Address, maxRegistrationListCount: int,
                                                  groups: seq<RegistrationRecords>, g1: int, g2: int,
                                                  d1: RegistrationRecordDetail, d2: RegistrationRecordDetail)
    requires 0 <= g1 < g2 < |groups| && groups[g1].service == groups[g2].service
    requires d1 in Distinct(groups[g1].details) && d2 in Distinct(groups[g2].details)
    requires d1.registrant == d2.registrant
    ensures RecordRegistration(s, sender, maxRegistrationListCount, Some(groups)).Failure?
  {
    if RecordRegistration(s, sender, maxRegistrationListCount, Some(groups)).Success? {
      RecordRegistrationEffect(s, sender, maxRegistrationListCount, Some(groups),
                               RecordRegistration(s, sender, maxRegistrationListCount, Some(groups)).value);
    }
  }

  /** The position of the first record of a registrant in a group. */
  lemma {:induction false} FirstRecordOf(details: seq<RegistrationRecordDetail>, x: Option<Address>) returns (i: int)
    requires exists j :: 0 <= j < |details| && details[j].registrant == x
    ensures 0 <= i < |details| && details[i].registrant == x
    ensures forall j :: 0 <= j < i ==> details[j].registrant != x
    ensures details[i] in Distinct(details)
  {
    i := 0;
    while details[i].registrant != x
      invariant 0 <= i < |details|
      invariant forall j :: 0 <= j < i ==> details[j].registrant != x
      invariant exists j :: i <= j < |details| && details[j].registrant == x
      decreases |details| - i
    {
      i := i + 1;
    }
  }

  /** Registration is write-once: a batch that names a registrant already registered in the
      service of its group fails, wherever the record sits. */
  lemma RecordRegistrationWriteOnce(s: Registry, sender: Address, maxRegistrationListCount: int,
                                    groups: seq<RegistrationRecords>, g: int, i: int)
    requires 0 <= g < |groups| && 0 <= i < |groups[g].details|
    requires groups[g].details[i].registrant.Some?
    requires (groups[g].service, groups[g].details[i].registrant.value) in s.registrationMap
    ensures RecordRegistration(s, sender, maxRegistrationListCount, Some(groups)).Failure?
  {
    if RecordRegistration(s, sender, maxRegistrationListCount, Some(groups)).Success? {
      var r := RecordRegistration(s, sender, maxRegistrationListCount, Some(groups)).value;
      RecordRegistrationEffect(s, sender, maxRegistrationListCount, Some(groups), r);
      var j := FirstRecordOf(groups[g].details, groups[g].details[i].registrant);
    }
  }

  /** The checks apply to the first record of each registrant of a group: if that record has an
      empty domain, no registrant, no creation time or a domain nobody applied for, the batch fails. */
  lemma RecordRegistrationRejectsInvalid(s: Registry, sender: Address, maxRegistrationListCount: int,
                                         groups: seq<RegistrationRecords>, g: int, i: int)
    requires 0 <= g < |groups| && 0 <= i < |groups[g].details|
    requires forall j :: 0 <= j < i ==> groups[g].details[j].registrant != groups[g].details[i].registrant
    requires DetailError(s, groups[g].details[i]).Some?
    ensures RecordRegistration(s, sender, maxRegistrationListCount, Some(groups)).Failure?
  {
    if RecordRegistration(s, sender, maxRegistrationListCount, Some(groups)).Success? {
      var r := RecordRegistration(s, sender, maxRegistrationListCount, Some(groups)).value;
      RegisterGroupsEffect(s, groups, r);
    }
  }

  /** Within a group a repeated registrant is dropped without any check: appending a record for
      a registrant the group already has, even an invalid one, does not change the outcome. */
  lemma {:induction false} RecordRegistrationIgnoresRepeat(s: Registry, groups: seq<RegistrationRecords>, g: int,
                                                           d: RegistrationRecordDetail)
    requires 0 <= g < |groups|
    requires exists i :: 0 <= i < |groups[g].details| && groups[g].details[i].registrant == d.registrant
    decreases g
    ensures RegisterGroups(s, groups[g := groups[g].(details := groups[g].details + [d])]) == RegisterGroups(s, groups)
  {
    var groups' := groups[g := groups[g].(details := groups[g].details + [d])];
    if g == 0 {
      DistinctIgnoresRepeat(groups[0].details, d);
      assert groups'[1..] == groups[1..];
    } else {
      assert groups'[0] == groups[0];
      assert groups'[1..] == groups[1..][g - 1 := groups[g].(details := groups[g].details + [d])];
      if groups[0].service != "" {
        var step := RegisterDetails(s, groups[0].service, Distinct(groups[0].details));
        if step.Success? {
          assert groups[1..][g - 1] == groups[g];
          RecordRegistrationIgnoresRepeat(step.value, groups[1..], g - 1, d);
        }
      }
    }
  }

  // ---------------------------------------------------------------------------------------
  // PointsContract_Services.cs

  /** The first check of the earning-rule validation that a rule fails, if any. */
  function EarningRuleError(s: Registry, rule: EarningRule): Option<string>
  {
    if rule.pointName == "" || rule.pointName !in s.pointInfos then Some("Wrong points information.")
    else if rule.actionName == "" then Some("ActionName cannot be empty.")
    else if !(rule.userPoints > 0 && rule.kolPoints > 0 && rule.inviterPoints > 0) then Some("Points must large than 0.")
    else None
  }

  /** The error of the first invalid rule of a list. */
  function EarningRulesError(s: Registry, rules: seq<EarningRule>): (r: Option<string>)
    ensures r.None? <==> forall i :: 0 <= i < |rules| ==> EarningRuleError(s, rules[i]).None?
    ensures r.Some? ==> exists i :: 0 <= i < |rules| && r == EarningRuleError(s, rules[i])
                                    && forall j :: 0 <= j < i ==> EarningRuleError(s, rules[j]).None?
  {
    if |rules| == 0 then None
    else if EarningRuleError(s, rules[0]).Some? then EarningRuleError(s, rules[0])
    else
      var r := EarningRulesError(s, rules[1..]);
      assert forall i :: 1 <= i < |rules| ==> rules[i] == rules[1..][i - 1];
      assert r.Some? ==> exists i :: 1 <= i < |rules| && r == EarningRuleError(s, rules[i])
                                     && forall j :: 0 <= j < i ==> EarningRuleError(s, rules[j]).None? by {
        if r.Some? {
          var i :| 0 <= i < |rules[1..]| && r == EarningRuleError(s, rules[1..][i])
                   && forall j :: 0 <= j < i ==> EarningRuleError(s, rules[1..][j]).None?;
          assert forall j :: 0 <= j < i + 1 ==> EarningRuleError(s, rules[j]).None? by {
            forall j | 0 <= j < i + 1 ensures EarningRuleError(s, rules[j]).None? {
              if j > 0 { assert rules[j] == rules[1..][j - 1]; }
            }
          }
        }
      }
      r
  }

  /** `SetServicesEarningRules`: the admin replaces a service's earning rules; `rules` is the
      `EarningRuleList` message, which may be absent. */
  function SetServicesEarningRules(s: Registry, sender: Address, service: string,
                                   rules: Option<seq<EarningRule>>): Result<Registry>
  {
    if AdminGuard(s, sender).Some? then Failure(AdminGuard(s, sender).value)
    else if rules.None? then Failure("Invalid input.")
    else if EarningRulesError(s, rules.value).Some? then Failure(EarningRulesError(s, rules.value).value)
    else Success(s.(servicesEarningRulesMap := s.servicesEarningRulesMap[service := rules.value]))
  }

  /** `GetServicesEarningRules`: the stored rules of a service. */
  function GetServicesEarningRules(s: Registry, service: string): Result<seq<EarningRule>>
  {
    if service !in s.servicesEarningRulesMap then Failure("Service not registry yet.")
    else Success(s.servicesEarningRulesMap[service])
  }

  /** `SetServicesEarningRules` commits exactly when the admin guard passes, the list is given
      and every rule names a created token, names its action and pays all three roles a
      positive amount; it then replaces the service's list wholesale, so that
      `GetServicesEarningRules` returns exactly that list, and changes nothing else. */
  lemma SetServicesEarningRulesEffect(s: Registry, sender: Address, service: string, rules: Option<seq<EarningRule>>)
    ensures SetServicesEarningRules(s, sender, service, rules).Success?
        <==> && s.initialized && s.admin == Some(sender) && rules.Some?
             && forall i :: 0 <= i < |rules.value| ==>
                  && rules.value[i].pointName != "" && rules.value[i].pointName in s.pointInfos
                  && rules.value[i].actionName != ""
                  && rules.value[i].userPoints > 0 && rules.value[i].kolPoints > 0 && rules.value[i].inviterPoints > 0
    ensures SetServicesEarningRules(s, sender, service, rules).Success? ==>
              var r := SetServicesEarningRules(s, sender, service, rules).value;
              && r == s.(servicesEarningRulesMap := r.servicesEarningRulesMap)
              && GetServicesEarningRules(r, service) == Success(rules.value)
              && forall t :: t != service ==> GetServicesEarningRules(r, t) == GetServicesEarningRules(s, t)
  {
    if SetServicesEarningRules(s, sender, service, rules).Success? || (s.initialized && s.admin == Some(sender) && rules.Some?) {
      forall i | 0 <= i < |rules.value|
        ensures EarningRuleError(s, rules.value[i]).None?
            <==> && rules.value[i].pointName != "" && rules.value[i].pointName in s.pointInfos
                 && rules.value[i].actionName != ""
                 && rules.value[i].userPoints > 0 && rules.value[i].kolPoints > 0 && rules.value[i].inviterPoints > 0
      {
      }
    }
  }

  /** A rule that fails a check rejects the whole list with that rule's message, unless an
      earlier rule already failed. */
  lemma SetServicesEarningRulesRejectsInvalid(s: Registry, sender: Address, service: string, rules: seq<EarningRule>, i: int)
    requires s.initialized && s.admin == Some(sender)
    requires 0 <= i < |rules| && EarningRuleError(s, rules[i]).Some?
    requires forall j :: 0 <= j < i ==> EarningRuleError(s, rules[j]).None?
    ensures SetServicesEarningRules(s, sender, service, Some(rules)) == Failure(EarningRuleError(s, rules[i]).value)
  {
    FirstEarningRuleError(s, rules, i);
  }

  /** The validation reports the first failing rule. */
  lemma FirstEarningRuleError(s: Registry, rules: seq<EarningRule>, i: int)
    requires 0 <= i < |rules| && EarningRuleError(s, rules[i]).Some?
    requires forall j :: 0 <= j < i ==> EarningRuleError(s, rules[j]).None?
    ensures EarningRulesError(s, rules) == EarningRuleError(s, rules[i])
  {
    assert EarningRulesError(s, rules).Some?;
    var k :| 0 <= k < |rules| && EarningRulesError(s, rules) == EarningRuleError(s, rules[k])
             && forall j :: 0 <= j < k ==> EarningRuleError(s, rules[j]).None?;
    assert k == i;
  }

  // ---------------------------------------------------------------------------------------
  // PointsContract_View.cs

  function GetAdmin(s: Registry): Option<Address>
  {
    s.admin
  }

  function GetReservedDomainList(s: Registry): Option<seq<string>>
  {
    s.reservedDomains
  }

  function GetMaxRecordListCount(s: Registry): int
  {
    s.maxRecordListCount
  }

  function GetMaxApplyCount(s: Registry): int
  {
    s.maxApplyCount
  }

  /** `DomainOperatorRelationshipMap[domain]`: the stored relationship, or nothing. */
  function GetDomainApplyInfo(s: Registry, domain: string): Option<DomainOperatorRelationship>
  {
    if domain in s.domainOperatorRelationshipMap then Some(s.domainOperatorRelationshipMap[domain]) else None
  }

  /** `SetAdmin` accepts exactly a non-empty address, and `GetAdmin` then returns it. */
  lemma SetAdminRoundTrip(s: Registry, sender: Address, admin: Address)
    requires s.initialized && s.admin == Some(sender)
    ensures SetAdmin(s, sender, admin).Success? <==> |admin.value| > 0
    ensures SetAdmin(s, sender, admin).Success? ==> GetAdmin(SetAdmin(s, sender, admin).value) == Some(admin)
  {
  }

  /** `SetReservedDomainList` accepts exactly a non-empty list, and `GetReservedDomainList`
      then returns it. */
  lemma SetReservedDomainListRoundTrip(s: Registry, sender: Address, list: Option<seq<string>>)
    requires s.initialized && s.admin == Some(sender)
    ensures SetReservedDomainList(s, sender, list).Success? <==> list.Some? && |list.value| > 0
    ensures SetReservedDomainList(s, sender, list).Success? ==>
              GetReservedDomainList(SetReservedDomainList(s, sender, list).value) == list
  {
  }

  /** `SetMaxRecordListCount` accepts exactly a positive count, and `GetMaxRecordListCount`
      then returns it. */
  lemma SetMaxRecordListCountRoundTrip(s: Registry, sender: Address, value: int)
    requires s.initialized && s.admin == Some(sender)
    ensures SetMaxRecordListCount(s, sender, value).Success? <==> value > 0
    ensures SetMaxRecordListCount(s, sender, value).Success? ==>
              GetMaxRecordListCount(SetMaxRecordListCount(s, sender, value).value) == value
  {
  }

  /** `SetMaxApplyCount` accepts exactly a positive count, and `GetMaxApplyCount` then returns it. */
  lemma SetMaxApplyCountRoundTrip(s: Registry, sender: Address, value: int)
    requires s.initialized && s.admin == Some(sender)
    ensures SetMaxApplyCount(s, sender, value).Success? <==> value > 0
    ensures SetMaxApplyCount(s, sender, value).Success? ==> GetMaxApplyCount(SetMaxApplyCount(s, sender, value).value) == value
  {
  }

  /** After a committed `ApplyToOperator`, `GetDomainApplyInfo` returns the application. */
  lemma ApplyThenGetDomainApplyInfo(s: Registry, sender: Address, domain: string, service: string, invitee: Address)
    requires ApplyToOperator(s, sender, domain, service, Some(invitee)).Success?
    ensures GetDomainApplyInfo(ApplyToOperator(s, sender, domain, service, Some(invitee)).value, domain)
            == Some(DomainOperatorRelationship(domain, invitee, sender))
  {
  }

  // ---------------------------------------------------------------------------------------
  // The invariant every committed step keeps

  /** What holds of every reachable state: an initialised contract has an admin and positive
      limits; every operator domain is stored under its own name; every application count is
      non-negative; and every registration names a service and a domain that was applied for,
      since domains are never removed. */
  ghost predicate Inv(s: Registry)
  {
    && (s.initialized ==> s.admin.Some? && s.maxRecordListCount > 0 && s.maxApplyCount > 0)
    && (forall d :: d in s.domainOperatorRelationshipMap ==> s.domainOperatorRelationshipMap[d].domain == d)
    && (forall k :: k in s.applyCount ==> s.applyCount[k] >= 0)
    && (forall k :: k in s.registrationMap ==> k.0 != "" && s.registrationMap[k].domain in s.domainOperatorRelationshipMap)
  }

  lemma DeployedInv(pointsInfos: map<string, PointInfo>)
    ensures Inv(Deployed(pointsInfos))
  {
  }

  /** The inner registration loop keeps the invariant: it stores records whose domain exists
      under a non-empty service, and touches nothing else. */
  lemma {:induction false} RegisterDetailsKeepsInv(s: Registry, service: string, details: seq<RegistrationRecordDetail>)
    requires Inv(s) && service != "" && RegisterDetails(s, service, details).Success?
    decreases |details|
    ensures Inv(RegisterDetails(s, service, details).value)
  {
    if |details| > 0 {
      var d := details[0];
      var s1 := s.(registrationMap := s.registrationMap[(service, d.registrant.value) := RegistrationInfo(d.domain, d.createTime.value)]);
      assert Inv(s1);
      RegisterDetailsKeepsInv(s1, service, details[1..]);
    }
  }

  /** The outer registration loop keeps the invariant. */
  lemma {:induction false} RegisterGroupsKeepsInv(s: Registry, groups: seq<RegistrationRecords>)
    requires Inv(s) && RegisterGroups(s, groups).Success?
    decreases |groups|
    ensures Inv(RegisterGroups(s, groups).value)
  {
    if |groups| > 0 {
      var s1 := RegisterDetails(s, groups[0].service, Distinct(groups[0].details)).value;
      RegisterDetailsKeepsInv(s, groups[0].service, Distinct(groups[0].details));
      RegisterGroupsKeepsInv(s1, groups[1..]);
    }
  }

  lemma InitializeKeepsInv(s: Registry, sender: Address, isAuthor: bool, maxRecordListCount: int, maxApplyCount: int,
                           admin: Option<Address>)
    requires Inv(s) && Initialize(s, sender, isAuthor, maxRecordListCount, maxApplyCount, admin).Success?
    ensures Inv(Initialize(s, sender, isAuthor, maxRecordListCount, maxApplyCount, admin).value)
  {
  }

  lemma ApplyToOperatorKeepsInv(s: Registry, sender: Address, domain: string, service: string, invitee: Option<Address>)
    requires Inv(s) && ApplyToOperator(s, sender, domain, service, invitee).Success?
    ensures Inv(ApplyToOperator(s, sender, domain, service, invitee).value)
  {
  }

  lemma PointsSettlementKeepsInv(s: Registry, sender: Address, records: seq<PointsRecord>)
    requires Inv(s) && PointsSettlement(s, sender, records).Success?
    ensures Inv(PointsSettlement(s, sender, records).value)
  {
  }

  lemma RecordRegistrationKeepsInv(s: Registry, sender: Address, maxRegistrationListCount: int,
                                   groups: Option<seq<RegistrationRecords>>)
    requires Inv(s) && RecordRegistration(s, sender, maxRegistrationListCount, groups).Success?
    ensures Inv(RecordRegistration(s, sender, maxRegistrationListCount, groups).value)
  {
    RegisterGroupsKeepsInv(s, groups.value);
  }
}
