/** The dapp revision of the points contract as an object whose methods update its state maps
    in place, in the order PointsContract_Record.cs and PointsContract_Dapp.cs write them.
    Each public method reports the outcome of the pure step of `DappRecord` or `DappConfig` it
    implements and, when that step succeeds, leaves exactly the state the step commits. Each
    method also names the checks that abort it before its first write; after those the state is
    untouched. A failure after a write leaves it to the host to discard the writes, as the AElf
    runtime does for a failed transaction. */
module DappContract {
  import opened Common
  import opened DappState
  import DappRecord
  import DappRecordProofs
  import DappConfig

  class PointsContract {
    /** The host's domain-format check. */
    const validDomain: string -> bool

    var initialized: bool
    var admin: Option<Address>
    var maxApplyCount: int
    var reservedDomains: Option<seq<string>>
    var dappInfos: map<DappId, DappInfo>
    var pointInfos: map<(DappId, string), PointInfo>
    var selfIncreasingPointsRules: map<DappId, PointsRule>
    var domainsMap: map<string, DomainRelationship>
    var registrationMap: map<(DappId, Address), string>
    var applyDomainCount: map<(Address, DappId), int>
    var invitationCount: map<(DappId, Address), int>
    var tierTwoInvitationCount: map<(DappId, Address), int>
    var lastPointsUpdateTimes: map<CheckpointKey, int>
    var pointsBalance: map<BalanceKey, int>

    /** The whole contract state as one value. */
    function Snapshot(): Ledger
      reads this
    {
      Ledger(initialized, admin, maxApplyCount, reservedDomains, dappInfos, pointInfos, selfIncreasingPointsRules,
             domainsMap, registrationMap, applyDomainCount, invitationCount, tierTwoInvitationCount,
             lastPointsUpdateTimes, pointsBalance)
    }

    ghost predicate Valid()
      reads this
    {
      Inv(Snapshot())
    }

    /** A contract as its initialisation leaves it: the flag set, the admin, the quota and the
        reserved list stored, every map empty. */
    constructor(validDomain: string -> bool, admin: Option<Address>, maxApplyCount: int, reservedDomains: Option<seq<string>>)
      ensures this.validDomain == validDomain
      ensures Snapshot() == EmptyLedger(true, admin, maxApplyCount, reservedDomains)
      ensures Valid()
    {
      this.validDomain := validDomain;
      initialized := true;
      this.admin := admin;
      this.maxApplyCount := maxApplyCount;
      this.reservedDomains := reservedDomains;
      dappInfos := map[];
      pointInfos := map[];
      selfIncreasingPointsRules := map[];
      domainsMap := map[];
      registrationMap := map[];
      applyDomainCount := map[];
      invitationCount := map[];
      tierTwoInvitationCount := map[];
      lastPointsUpdateTimes := map[];
      pointsBalance := map[];
      EmptyLedgerInv(true, admin, maxApplyCount, reservedDomains);
    }

    // -------------------------------------------------------------------------------------
    // PointsContract_Record.cs

    method UpdatePointsPool(address: Address, domain: string, sourceType: IncomeSourceType, pointName: string, amount: int)
      modifies this`pointsBalance
      ensures Snapshot() == old(Snapshot()).(pointsBalance := DappRecord.UpdatePointsPool(old(pointsBalance), address, domain,
                                                                                         sourceType, pointName, amount))
    {
      var key := BalanceKey(address, domain, sourceType, pointName);
      pointsBalance := pointsBalance[key := Count(pointsBalance, key) + amount];
    }

    method UpdateSelfIncreasingPoint(dappId: DappId, address: Address, sourceType: IncomeSourceType, pointName: string,
                                     points: int, domain: string, now: int)
      modifies this`pointsBalance, this`lastPointsUpdateTimes
      ensures Snapshot() == DappRecord.UpdateSelfIncreasingPoint(old(Snapshot()), dappId, address, sourceType, pointName,
                                                                 points, domain, now)
    {
      var ck := CheckpointKey(dappId, address, sourceType);
      if ck in lastPointsUpdateTimes {
        var lastBlockTime := lastPointsUpdateTimes[ck];
        var waitingSettledPoints := DappRecord.CalculateWaitingSettledSelfIncreasingPoints(
          Snapshot(), dappId, address, sourceType, now, lastBlockTime, points);
        UpdatePointsPool(address, domain, sourceType, pointName, waitingSettledPoints);
      }
      lastPointsUpdateTimes := lastPointsUpdateTimes[ck := now];
    }

    /** On success the state is the one `DappRecord.SettlingSelfIncreasingPoints` commits; on
        failure the caller discards the writes. */
    method SettlingSelfIncreasingPoints(dappId: DappId, user: Address, now: int) returns (ok: Outcome)
      modifies this`pointsBalance, this`lastPointsUpdateTimes
      ensures ok == OutcomeOf(DappRecord.SettlingSelfIncreasingPoints(old(Snapshot()), dappId, user, now))
      ensures ok.Ok? ==> Snapshot() == DappRecord.SettlingSelfIncreasingPoints(old(Snapshot()), dappId, user, now).value
      ensures dappId !in old(selfIncreasingPointsRules) ==> unchanged(this)
    {
      if dappId !in selfIncreasingPointsRules {
        return Fail("This Dapp has not yet set the rules for self-increasing points");
      }
      var pointsRule := selfIncreasingPointsRules[dappId];
      var pointName := pointsRule.pointName;
      var domain := RegisteredDomain(Snapshot(), dappId, user);
      if CheckpointKey(dappId, user, User) in lastPointsUpdateTimes {
        UpdateSelfIncreasingPoint(dappId, user, User, pointName, pointsRule.userPoints, domain, now);
      }
      if dappId !in dappInfos {
        return Fail(NullReference);
      }
      if domain == dappInfos[dappId].officialDomain {
        return Ok;
      }
      if domain !in domainsMap {
        return Fail(NullReference);
      }
      var domainRelationship := domainsMap[domain];
      UpdateSelfIncreasingPoint(dappId, domainRelationship.invitee, Kol, pointName, pointsRule.kolPoints, domain, now);
      if domainRelationship.inviter.None? {
        return Ok;
      }
      UpdateSelfIncreasingPoint(dappId, domainRelationship.inviter.value, Inviter, pointName, pointsRule.inviterPoints, domain, now);
      return Ok;
    }

    /** On success the state is the one `DappRecord.SettlingPoints` commits; on failure the
        caller discards the writes. */
    method SettlingPoints(dappId: DappId, user: Address, actionName: string, now: int) returns (ok: Outcome)
      modifies this`pointsBalance, this`lastPointsUpdateTimes
      ensures ok == OutcomeOf(DappRecord.SettlingPoints(old(Snapshot()), dappId, user, actionName, now))
      ensures ok.Ok? ==> Snapshot() == DappRecord.SettlingPoints(old(Snapshot()), dappId, user, actionName, now).value
      ensures (|| dappId !in old(dappInfos) || old(dappInfos)[dappId].pointsRules.None?
               || DappRecord.FindRule(old(dappInfos)[dappId].pointsRules.value, actionName).None?) ==> unchanged(this)
    {
      if dappId !in dappInfos || dappInfos[dappId].pointsRules.None? {
        return Fail(NullReference);
      }
      var found := DappRecord.FindRule(dappInfos[dappId].pointsRules.value, actionName);
      if found.None? {
        return Fail("There is no corresponding points rule set for this action.");
      }
      var rule := found.value;
      var pointName := rule.pointName;
      var domain := RegisteredDomain(Snapshot(), dappId, user);
      ghost var s0 := Snapshot();
      UpdatePointsPool(user, domain, User, pointName, rule.userPoints);
      if domain != dappInfos[dappId].officialDomain {
        if domain !in domainsMap {
          return Fail(NullReference);
        }
        var domainRelationship := domainsMap[domain];
        UpdatePointsPool(domainRelationship.invitee, domain, Kol, pointName, rule.kolPoints);
        if domainRelationship.inviter.Some? {
          UpdatePointsPool(domainRelationship.inviter.value, domain, Inviter, pointName, rule.inviterPoints);
        }
      }
      assert Snapshot() == s0.(pointsBalance := pointsBalance);
      ok := SettlingSelfIncreasingPoints(dappId, user, now);
    }

    /** `Join`: reports the outcome of `DappRecord.Join` and, when it succeeds, leaves the state
        that step commits, which keeps the ledger invariant. On failure the host discards the
        writes made before the failing check. */
    method Join(fromDappContract: bool, dappId: DappId, registrant: Option<Address>, domain: string, now: int)
      returns (ok: Outcome)
      requires Valid()
      modifies this`registrationMap, this`pointsBalance, this`lastPointsUpdateTimes, this`invitationCount, this`tierTwoInvitationCount
      ensures ok == OutcomeOf(DappRecord.Join(old(Snapshot()), validDomain, fromDappContract, dappId, registrant, domain, now))
      ensures ok.Ok? ==> Snapshot() == DappRecord.Join(old(Snapshot()), validDomain, fromDappContract, dappId, registrant, domain,
                                                       now).value
      ensures ok.Ok? ==> Valid()
      ensures (|| !old(initialized) || !fromDappContract || registrant.None? || !validDomain(domain)
               || RegisteredDomain(old(Snapshot()), dappId, registrant.value) != "") ==> unchanged(this)
    {
      var saved := Snapshot();
      DappRecordProofs.JoinKeepsInv(saved, validDomain, fromDappContract, dappId, registrant, domain, now);
      if !initialized {
        return Fail("Not initialized.");
      }
      if !fromDappContract {
        return Fail("No permission.");
      }
      if registrant.None? {
        return Fail("Invalid registrant address.");
      }
      if !validDomain(domain) {
        return Fail("Invalid domain.");
      }
      var user := registrant.value;
      if RegisteredDomain(saved, dappId, user) != "" {
        return Fail("A dapp can only be registered once.");
      }
      Register(dappId, user, domain);
      var relationship := if domain in domainsMap then Some(domainsMap[domain]) else None;
      if dappId !in dappInfos {
        return Fail(NullReference);
      }
      if !(domain == dappInfos[dappId].officialDomain || relationship.Some?) {
        return Fail("Not exist domain.");
      }
      DappRecordProofs.JoinSteps(saved, validDomain, fromDappContract, dappId, user, domain, now);
      assert Snapshot() == DappRecordProofs.Registered(saved, dappId, user, domain);
      assert DappRecord.DomainOwner(Snapshot(), dappId, domain) == DappRecord.DomainOwner(saved, dappId, domain);
      ok := SettleJoin(dappId, user, domain, now);
    }

    /** The part of `Join` after the registration is written: the settlement of the `Join`
        action, the invitation counters of an advocate domain, and the user's first checkpoint. */
    method SettleJoin(dappId: DappId, user: Address, domain: string, now: int) returns (ok: Outcome)
      requires dappId in dappInfos && (domain == dappInfos[dappId].officialDomain || domain in domainsMap)
      modifies this`pointsBalance, this`lastPointsUpdateTimes, this`invitationCount, this`tierTwoInvitationCount
      ensures ok == OutcomeOf(DappRecord.SettlingPoints(old(Snapshot()), dappId, user, DappRecord.JoinAction, now))
      ensures ok.Ok? ==> Snapshot() == DappRecordProofs.JoinBookkeeping(
                            DappRecord.SettlingPoints(old(Snapshot()), dappId, user, DappRecord.JoinAction, now).value,
                            dappId, user, DappRecord.DomainOwner(old(Snapshot()), dappId, domain), now)
      ensures (|| old(dappInfos)[dappId].pointsRules.None?
               || DappRecord.FindRule(old(dappInfos)[dappId].pointsRules.value, DappRecord.JoinAction).None?) ==> unchanged(this)
    {
      ok := SettlingPoints(dappId, user, DappRecord.JoinAction, now);
      if ok.Fail? {
        return;
      }
      if domain != dappInfos[dappId].officialDomain {
        CountInvitation(dappId, domainsMap[domain]);
      }
      SetCheckpoint(CheckpointKey(dappId, user, User), now);
    }

    /** `ApplyToBeAdvocate`: reports the outcome of `DappRecord.ApplyToBeAdvocate` and, when it
        succeeds, leaves the state that step commits, which keeps the ledger invariant. On failure
        the host discards the writes made before the failing check. */
    method ApplyToBeAdvocate(sender: Address, dappId: Option<DappId>, domain: string, invitee: Option<Address>)
      returns (ok: Outcome)
      requires Valid()
      modifies this`domainsMap, this`pointsBalance, this`applyDomainCount
      ensures ok == OutcomeOf(DappRecord.ApplyToBeAdvocate(old(Snapshot()), validDomain, sender, dappId, domain, invitee))
      ensures ok.Ok? ==> Snapshot() == DappRecord.ApplyToBeAdvocate(old(Snapshot()), validDomain, sender, dappId, domain,
                                                                    invitee).value
      ensures ok.Ok? ==> Valid()
      ensures (|| invitee.None? || dappId.None? || dappId.value !in old(dappInfos)
               || Count(old(applyDomainCount), (sender, dappId.value)) >= old(maxApplyCount)
               || !validDomain(domain) || domain in old(domainsMap)
               || DappRecord.IsReserved(old(reservedDomains), domain)) ==> unchanged(this)
    {
      var saved := Snapshot();
      DappRecordProofs.ApplyKeepsInv(saved, validDomain, sender, dappId, domain, invitee);
      if invitee.None? {
        return Fail("Invalid invitee.");
      }
      if dappId.None? || dappId.value !in dappInfos {
        return Fail("Invalid dapp id.");
      }
      var id := dappId.value;
      if !(Count(applyDomainCount, (sender, id)) < maxApplyCount) {
        return Fail("Apply count exceed the limit.");
      }
      if !validDomain(domain) {
        return Fail("Invalid domain.");
      }
      if domain in domainsMap {
        return Fail("Domain has Exist.");
      }
      if DappRecord.IsReserved(reservedDomains, domain) {
        return Fail("This domain name is an officially reserved domain name");
      }
      DappRecordProofs.ApplySteps(saved, validDomain, sender, id, domain, invitee.value);
      ok := Advocate(sender, id, domain, invitee.value);
    }

    /** The part of `ApplyToBeAdvocate` after its guards: stores the domain with `kol` as its
        KOL and the sender as its inviter (unless they are the same address), looks up the
        dapp's `Apply` rule, pays the KOL's and the inviter's amounts and raises the sender's
        application count. */
    method Advocate(sender: Address, dappId: DappId, domain: string, kol: Address) returns (ok: Outcome)
      requires dappId in dappInfos
      modifies this`domainsMap, this`pointsBalance, this`applyDomainCount
      ensures var rules := old(dappInfos)[dappId].pointsRules;
              ok == if rules.None? then Fail(NullReference)
                    else if DappRecord.FindRule(rules.value, DappRecord.ApplyAction).None?
                    then Fail("There is no corresponding points rule set for apply.")
                    else Ok
      ensures ok.Ok? ==>
                Snapshot() == old(Snapshot()).(
                  domainsMap := old(domainsMap)[domain := DomainRelationship(domain, kol, if sender != kol then Some(sender) else None)],
                  pointsBalance := DappRecordProofs.ApplyCredit(old(pointsBalance), sender, kol, domain,
                    DappRecord.FindRule(old(dappInfos)[dappId].pointsRules.value, DappRecord.ApplyAction).value),
                  applyDomainCount := Increment(old(applyDomainCount), (sender, dappId)))
      ensures ok.Fail? ==>
                Snapshot() == old(Snapshot()).(
                  domainsMap := old(domainsMap)[domain := DomainRelationship(domain, kol, if sender != kol then Some(sender) else None)])
    {
      SetDomain(DomainRelationship(domain, kol, if sender != kol then Some(sender) else None));
      if dappInfos[dappId].pointsRules.None? {
        return Fail(NullReference);
      }
      var rule := DappRecord.FindRule(dappInfos[dappId].pointsRules.value, DappRecord.ApplyAction);
      if rule.None? {
        return Fail("There is no corresponding points rule set for apply.");
      }
      CreditApply(sender, dappId, domain, kol, rule.value);
      ok := Ok;
    }

    /** The writes of a successful `ApplyToBeAdvocate` after the domain is stored: the KOL's
        and the inviter's `Apply` amounts, then the sender's application count. */
    method CreditApply(sender: Address, dappId: DappId, domain: string, kol: Address, rule: PointsRule)
      modifies this`pointsBalance, this`applyDomainCount
      ensures Snapshot() == old(Snapshot()).(pointsBalance := DappRecordProofs.ApplyCredit(old(pointsBalance), sender, kol, domain, rule),
                                             applyDomainCount := Increment(old(applyDomainCount), (sender, dappId)))
    {
      UpdatePointsPool(kol, domain, Kol, rule.pointName, rule.kolPoints);
      if sender != kol {
        UpdatePointsPool(sender, domain, Inviter, rule.pointName, rule.inviterPoints);
      }
      CountApply(sender, dappId);
    }

    /** `DomainsMap[domain] = relationship`. */
    method SetDomain(relationship: DomainRelationship)
      modifies this`domainsMap
      ensures Snapshot() == old(Snapshot()).(domainsMap := old(domainsMap)[relationship.domain := relationship])
    {
      domainsMap := domainsMap[relationship.domain := relationship];
    }

    /** `ApplyDomainCount[sender][dappId] += 1`. */
    method CountApply(sender: Address, dappId: DappId)
      modifies this`applyDomainCount
      ensures Snapshot() == old(Snapshot()).(applyDomainCount := Increment(old(applyDomainCount), (sender, dappId)))
    {
      applyDomainCount := applyDomainCount[(sender, dappId) := Count(applyDomainCount, (sender, dappId)) + 1];
    }

    /** `RegistrationMap[dappId][user] = domain`. */
    method Register(dappId: DappId, user: Address, domain: string)
      modifies this`registrationMap
      ensures Snapshot() == old(Snapshot()).(registrationMap := old(registrationMap)[(dappId, user) := domain])
    {
      registrationMap := registrationMap[(dappId, user) := domain];
    }

    /** The invitation counters a join through an advocate domain raises. */
    method CountInvitation(dappId: DappId, relationship: DomainRelationship)
      modifies this`invitationCount, this`tierTwoInvitationCount
      ensures Snapshot() == DappRecord.CountInvitation(old(Snapshot()), dappId, relationship)
    {
      var invitee := relationship.invitee;
      invitationCount := invitationCount[(dappId, invitee) := Count(invitationCount, (dappId, invitee)) + 1];
      var inviter := relationship.inviter;
      if inviter.Some? {
        tierTwoInvitationCount := tierTwoInvitationCount[(dappId, inviter.value) := Count(tierTwoInvitationCount, (dappId, inviter.value)) + 1];
      }
    }

    /** `LastPointsUpdateTimes[dappId][address][type] = now`. */
    method SetCheckpoint(ck: CheckpointKey, now: int)
      modifies this`lastPointsUpdateTimes
      ensures Snapshot() == old(Snapshot()).(lastPointsUpdateTimes := old(lastPointsUpdateTimes)[ck := now])
    {
      lastPointsUpdateTimes := lastPointsUpdateTimes[ck := now];
    }

    // -------------------------------------------------------------------------------------
    // PointsContract_Dapp.cs

    /** `AddDapp`: commits exactly what `DappConfig.AddDapp` commits. */
    method AddDapp(sender: Address, dappId: DappId, dappAdmin: Option<Address>, officialDomain: string,
                   dappContractAddress: Option<Address>) returns (ok: Outcome)
      requires Valid()
      modifies this`dappInfos
      ensures ok == OutcomeOf(DappConfig.AddDapp(old(Snapshot()), validDomain, sender, dappId, dappAdmin, officialDomain,
                                                 dappContractAddress))
      ensures Snapshot() == Commit(old(Snapshot()), DappConfig.AddDapp(old(Snapshot()), validDomain, sender, dappId, dappAdmin,
                                                                      officialDomain, dappContractAddress))
      ensures Valid()
    {
      if !initialized {
        return Fail("Not initialized.");
      }
      if admin != Some(sender) {
        return Fail("No permission.");
      }
      if !validDomain(officialDomain) {
        return Fail("Invalid domain.");
      }
      ghost var s0 := Snapshot();
      dappInfos := dappInfos[dappId := DappInfo(dappAdmin, officialDomain, dappContractAddress, None)];
      DappConfig.ConfigKeepsInv(s0, Snapshot());
      ok := Ok;
    }

    /** The validation loop of `SetDappPointsRules`: the message of the first rule that fails a
        check, or `None` when every rule passes. */
    method CheckPointsRules(dappId: DappId, rules: seq<PointsRule>) returns (err: Option<string>)
      ensures err == DappConfig.PointsRulesError(Snapshot(), dappId, rules)
    {
      var i := 0;
      while i < |rules|
        invariant 0 <= i <= |rules|
        invariant forall j :: 0 <= j < i ==> DappConfig.PointsRuleError(Snapshot(), dappId, rules[j]).None?
      {
        var rule := rules[i];
        if rule.pointName == "" || (dappId, rule.pointName) !in pointInfos {
          err := Some("Wrong points name input.");
        } else if rule.actionName == "" {
          err := Some("ActionName cannot be empty.");
        } else if !(rule.userPoints >= 0 && rule.kolPointsPercent > 0 && rule.inviterPointsPercent > 0) {
          err := Some("Points must be greater than 0.");
        } else {
          err := None;
        }
        if err.Some? {
          DappConfig.FirstRuleError(Snapshot(), dappId, rules, i);
          return;
        }
        i := i + 1;
      }
      return None;
    }

    /** `SetDappPointsRules`: commits exactly what `DappConfig.SetDappPointsRules` commits. */
    method SetDappPointsRules(dappAdminCheck: Option<string>, dappId: DappId, rules: Option<seq<PointsRule>>)
      returns (ok: Outcome)
      requires Valid()
      modifies this`dappInfos
      ensures ok == OutcomeOf(DappConfig.SetDappPointsRules(old(Snapshot()), dappAdminCheck, dappId, rules))
      ensures Snapshot() == Commit(old(Snapshot()), DappConfig.SetDappPointsRules(old(Snapshot()), dappAdminCheck, dappId, rules))
      ensures Valid()
    {
      if !initialized {
        return Fail("Not initialized.");
      }
      if dappAdminCheck.Some? {
        return Fail(dappAdminCheck.value);
      }
      if rules.None? {
        return Fail(NullReference);
      }
      var err := CheckPointsRules(dappId, rules.value);
      if err.Some? {
        return Fail(err.value);
      }
      if dappId !in dappInfos {
        return Fail(NullReference);
      }
      ghost var s0 := Snapshot();
      var info := dappInfos[dappId];
      dappInfos := dappInfos[dappId := DappInfo(info.dappAdmin, info.officialDomain, info.dappContractAddress, Some(rules.value))];
      DappConfig.ConfigKeepsInv(s0, Snapshot());
      ok := Ok;
    }

    /** `SetSelfIncreasingPointsRules`: commits exactly what `DappConfig.SetSelfIncreasingPointsRules` commits. */
    method SetSelfIncreasingPointsRules(dappAdminCheck: Option<string>, dappId: DappId, rule: Option<PointsRule>)
      returns (ok: Outcome)
      requires Valid()
      modifies this`selfIncreasingPointsRules
      ensures ok == OutcomeOf(DappConfig.SetSelfIncreasingPointsRules(old(Snapshot()), dappAdminCheck, dappId, rule))
      ensures Snapshot() == Commit(old(Snapshot()), DappConfig.SetSelfIncreasingPointsRules(old(Snapshot()), dappAdminCheck,
                                                                                           dappId, rule))
      ensures Valid()
    {
      if !initialized {
        return Fail("Not initialized.");
      }
      if dappAdminCheck.Some? {
        return Fail(dappAdminCheck.value);
      }
      if rule.None? {
        return Fail("Invalid self-increasing points rules.");
      }
      if rule.value.pointName == "" || (dappId, rule.value.pointName) !in pointInfos {
        return Fail("Wrong points name input.");
      }
      if !(rule.value.userPoints > 0 && rule.value.kolPointsPercent > 0 && rule.value.inviterPointsPercent > 0) {
        return Fail("Points must be greater than 0.");
      }
      ghost var s0 := Snapshot();
      selfIncreasingPointsRules := selfIncreasingPointsRules[dappId := rule.value];
      DappConfig.ConfigKeepsInv(s0, Snapshot());
      ok := Ok;
    }

    /** `AssertValidCreateInput`: the message the checks abort with, or `None`. */
    method AssertValidCreateInput(pointsName: string, decimals: int, dappId: DappId) returns (err: Option<string>)
      ensures err == DappConfig.CreateInputError(Snapshot(), dappId, pointsName, decimals)
    {
      if !(0 < Utf16Length(pointsName) <= TokenNameLength && 0 <= decimals <= MaxDecimals) {
        return Some("Invalid input.");
      }
      var existing := if (dappId, pointsName) in pointInfos then Some(pointInfos[(dappId, pointsName)]) else None;
      if !(existing.None? || existing.value == EmptyPointInfo) {
        return Some("Point token already exists.");
      }
      return None;
    }

    method SetPoint(dappId: DappId, pointsName: string, decimals: int)
      modifies this`pointInfos
      ensures Snapshot() == DappConfig.SetPoint(old(Snapshot()), dappId, pointsName, decimals)
    {
      pointInfos := pointInfos[(dappId, pointsName) := PointInfo(pointsName, decimals)];
    }

    /** `CreatePoint`: commits exactly what `DappConfig.CreatePoint` commits. */
    method CreatePoint(dappAdminCheck: Option<string>, dappId: DappId, pointsName: string, decimals: int) returns (ok: Outcome)
      requires Valid()
      modifies this`pointInfos
      ensures ok == OutcomeOf(DappConfig.CreatePoint(old(Snapshot()), dappAdminCheck, dappId, pointsName, decimals))
      ensures Snapshot() == Commit(old(Snapshot()), DappConfig.CreatePoint(old(Snapshot()), dappAdminCheck, dappId, pointsName,
                                                                          decimals))
      ensures Valid()
    {
      if !initialized {
        return Fail("Not initialized.");
      }
      if dappAdminCheck.Some? {
        return Fail(dappAdminCheck.value);
      }
      var err := AssertValidCreateInput(pointsName, decimals, dappId);
      if err.Some? {
        return Fail(err.value);
      }
      ghost var s0 := Snapshot();
      SetPoint(dappId, pointsName, decimals);
      DappConfig.ConfigKeepsInv(s0, Snapshot());
      ok := Ok;
    }

    /** `CreatePointList`: reports the outcome of `DappConfig.CreatePointList` and, when it
        succeeds, leaves the state that step commits. On failure the host discards the entries
        stored before the failing one. */
    method CreatePointList(dappAdminCheck: Option<string>, dappId: DappId, points: seq<PointInfo>) returns (ok: Outcome)
      requires Valid()
      modifies this`pointInfos
      ensures ok == OutcomeOf(DappConfig.CreatePointList(old(Snapshot()), dappAdminCheck, dappId, points))
      ensures ok.Ok? ==> Snapshot() == DappConfig.CreatePointList(old(Snapshot()), dappAdminCheck, dappId, points).value
      ensures ok.Ok? ==> Valid()
      ensures (|| !old(initialized) || dappAdminCheck.Some? || |points| == 0
               || DappConfig.CreateInputError(old(Snapshot()), dappId, points[0].tokenName, points[0].decimals).Some?)
              ==> unchanged(this)
    {
      if !initialized {
        return Fail("Not initialized.");
      }
      if dappAdminCheck.Some? {
        return Fail(dappAdminCheck.value);
      }
      if |points| == 0 {
        return Fail("Invalid input.");
      }
      ghost var saved := Snapshot();
      ok := CreatePoints(dappId, points);
      if ok.Ok? {
        DappConfig.ConfigKeepsInv(saved, Snapshot());
      }
    }

    /** The loop of `CreatePointList`: validates and stores the entries one at a time. */
    method CreatePoints(dappId: DappId, points: seq<PointInfo>) returns (ok: Outcome)
      modifies this`pointInfos
      ensures ok == OutcomeOf(DappConfig.CreatePoints(old(Snapshot()), dappId, points))
      ensures ok.Ok? ==> Snapshot() == DappConfig.CreatePoints(old(Snapshot()), dappId, points).value
      ensures |points| > 0 && DappConfig.CreateInputError(old(Snapshot()), dappId, points[0].tokenName, points[0].decimals).Some?
              ==> unchanged(this)
    {
      var i := 0;
      while i < |points|
        invariant 0 <= i <= |points|
        invariant i == 0 ==> unchanged(this)
        invariant i > 0 ==> DappConfig.CreateInputError(old(Snapshot()), dappId, points[0].tokenName, points[0].decimals).None?
        invariant DappConfig.CreatePoints(old(Snapshot()), dappId, points) == DappConfig.CreatePoints(Snapshot(), dappId, points[i..])
      {
        var err := AssertValidCreateInput(points[i].tokenName, points[i].decimals, dappId);
        if err.Some? {
          return Fail(err.value);
        }
        assert points[i..][1..] == points[i + 1..];
        SetPoint(dappId, points[i].tokenName, points[i].decimals);
        i := i + 1;
      }
      ok := Ok;
    }
  }
}
