/** Registration, advocate domains and points settlement of the dapp revision
    (PointsContract_Record.cs), as pure transaction steps over a `Ledger`.
    Each public step returns the committed state or the message that aborted it; the
    writes a step performs before a failing `Assert` are discarded with it. */
module DappRecord {
  import opened Common
  import opened DappState

  const JoinAction := "Join"
  const ApplyAction := "Apply"

  /** `PointsRules.FirstOrDefault(t => t.ActionName == actionName)`: the first rule for the action. */
  function FindRule(rules: seq<PointsRule>, actionName: string): (r: Option<PointsRule>)
    ensures r.None? <==> forall i :: 0 <= i < |rules| ==> rules[i].actionName != actionName
    ensures r.Some? ==> exists i :: 0 <= i < |rules| && rules[i] == r.value && rules[i].actionName == actionName
                                     && forall j :: 0 <= j < i ==> rules[j].actionName != actionName
  {
    if |rules| == 0 then None
    else if rules[0].actionName == actionName then Some(rules[0])
    else
      var r := FindRule(rules[1..], actionName);
      assert r.Some? ==> exists i :: 1 <= i < |rules| && rules[i] == r.value && rules[i].actionName == actionName
                                      && forall j :: 0 <= j < i ==> rules[j].actionName != actionName by {
        if r.Some? {
          var i :| 0 <= i < |rules[1..]| && rules[1..][i] == r.value && rules[1..][i].actionName == actionName
                   && forall j :: 0 <= j < i ==> rules[1..][j].actionName != actionName;
          assert forall j :: 0 <= j < i + 1 ==> rules[j].actionName != actionName by {
            forall j | 0 <= j < i + 1 ensures rules[j].actionName != actionName {
              if j > 0 { assert rules[j] == rules[1..][j - 1]; }
            }
          }
        }
      }
      assert r.None? ==> forall i :: 0 <= i < |rules| ==> rules[i].actionName != actionName by {
        if r.None? {
          forall i | 0 <= i < |rules| ensures rules[i].actionName != actionName {
            if i > 0 { assert rules[i] == rules[1..][i - 1]; }
          }
        }
      }
      r
  }

  /** The dapp's rule for an action, when the dapp exists and has a rule list. */
  function ActionRule(s: Ledger, dappId: DappId, actionName: string): Option<PointsRule>
  {
    if dappId in s.dappInfos && s.dappInfos[dappId].pointsRules.Some?
    then FindRule(s.dappInfos[dappId].pointsRules.value, actionName)
    else None
  }

  /** The advocate relationship that pays the KOL and the inviter of a domain: none for the
      dapp's official domain. */
  function DomainOwner(s: Ledger, dappId: DappId, domain: string): Option<DomainRelationship>
  {
    if dappId in s.dappInfos && domain != s.dappInfos[dappId].officialDomain && domain in s.domainsMap
    then Some(s.domainsMap[domain])
    else None
  }

  /** `PointsBalance[address][domain][type][pointName] += amount`: adds `amount` to one balance and to no other. */
  function UpdatePointsPool(balances: map<BalanceKey, int>, address: Address, domain: string, sourceType: IncomeSourceType,
                            pointName: string, amount: int): (r: map<BalanceKey, int>)
    ensures Count(r, BalanceKey(address, domain, sourceType, pointName))
         == Count(balances, BalanceKey(address, domain, sourceType, pointName)) + amount
    ensures forall k :: k != BalanceKey(address, domain, sourceType, pointName) ==> Count(r, k) == Count(balances, k)
  {
    var key := BalanceKey(address, domain, sourceType, pointName);
    balances[key := Count(balances, key) + amount]
  }

  /** The factor by which a role's self-increasing rate is scaled: 1 for the user itself, the
      number of joins through its domains for a KOL, and the number of joins through the
      domains it sponsored for an inviter. */
  function Multiplier(s: Ledger, dappId: DappId, address: Address, sourceType: IncomeSourceType): int
  {
    match sourceType
    case User => 1
    case Kol => Count(s.invitationCount, (dappId, address))
    case Inviter => Count(s.tierTwoInvitationCount, (dappId, address))
  }

  /** The self-increasing points earned between two block times: rate × elapsed seconds × multiplier. */
  function CalculateWaitingSettledSelfIncreasingPoints(s: Ledger, dappId: DappId, address: Address,
                                                       sourceType: IncomeSourceType, currentBlockTime: int,
                                                       lastBlockTime: int, points: int): (r: int)
    ensures r == points * (currentBlockTime - lastBlockTime) * Multiplier(s, dappId, address, sourceType)
  {
    var timeGap := currentBlockTime - lastBlockTime;
    match sourceType
    case Inviter => points * timeGap * Count(s.tierTwoInvitationCount, (dappId, address))
    case Kol => points * timeGap * Count(s.invitationCount, (dappId, address))
    case User => points * timeGap
  }

  /** What settling a role at `now` credits: nothing while the role has no checkpoint. */
  function PendingSelfIncreasingPoints(s: Ledger, dappId: DappId, address: Address,
                                       sourceType: IncomeSourceType, points: int, now: int): int
  {
    var ck := CheckpointKey(dappId, address, sourceType);
    if ck in s.lastPointsUpdateTimes
    then CalculateWaitingSettledSelfIncreasingPoints(s, dappId, address, sourceType, now, s.lastPointsUpdateTimes[ck], points)
    else 0
  }

  /** Settles one role's self-increasing points up to `now` and moves its checkpoint to `now`. */
  function UpdateSelfIncreasingPoint(s: Ledger, dappId: DappId, address: Address, sourceType: IncomeSourceType,
                                     pointName: string, points: int, domain: string, now: int): (r: Ledger)
    ensures r == s.(pointsBalance := r.pointsBalance, lastPointsUpdateTimes := r.lastPointsUpdateTimes)
    ensures r.lastPointsUpdateTimes == s.lastPointsUpdateTimes[CheckpointKey(dappId, address, sourceType) := now]
    ensures CheckpointKey(dappId, address, sourceType) !in s.lastPointsUpdateTimes ==> r.pointsBalance == s.pointsBalance
    ensures BalanceOf(r, BalanceKey(address, domain, sourceType, pointName))
         == BalanceOf(s, BalanceKey(address, domain, sourceType, pointName))
            + PendingSelfIncreasingPoints(s, dappId, address, sourceType, points, now)
    ensures forall k :: k != BalanceKey(address, domain, sourceType, pointName) ==> BalanceOf(r, k) == BalanceOf(s, k)
  {
    var ck := CheckpointKey(dappId, address, sourceType);
    s.(pointsBalance := if ck in s.lastPointsUpdateTimes
                        then UpdatePointsPool(s.pointsBalance, address, domain, sourceType, pointName,
                               CalculateWaitingSettledSelfIncreasingPoints(s, dappId, address, sourceType, now,
                                                                           s.lastPointsUpdateTimes[ck], points))
                        else s.pointsBalance,
       lastPointsUpdateTimes := s.lastPointsUpdateTimes[ck := now])
  }

  /** Settles the self-increasing points of a user and of its domain's KOL and inviter. */
  function SettlingSelfIncreasingPoints(s: Ledger, dappId: DappId, user: Address, now: int): Result<Ledger>
  {
    if dappId !in s.selfIncreasingPointsRules then
      Failure("This Dapp has not yet set the rules for self-increasing points")
    else
      var rule := s.selfIncreasingPointsRules[dappId];
      var domain := RegisteredDomain(s, dappId, user);
      var s1 := if CheckpointKey(dappId, user, User) in s.lastPointsUpdateTimes
                then UpdateSelfIncreasingPoint(s, dappId, user, User, rule.pointName, rule.userPoints, domain, now)
                else s;
      if dappId !in s1.dappInfos then Failure(NullReference)
      else if domain == s1.dappInfos[dappId].officialDomain then Success(s1)
      else if domain !in s1.domainsMap then Failure(NullReference)
      else
        var relationship := s1.domainsMap[domain];
        var s2 := UpdateSelfIncreasingPoint(s1, dappId, relationship.invitee, Kol, rule.pointName, rule.kolPoints, domain, now);
        if relationship.inviter.None? then Success(s2)
        else Success(UpdateSelfIncreasingPoint(s2, dappId, relationship.inviter.value, Inviter, rule.pointName,
                                               rule.inviterPoints, domain, now))
  }

  /** Pays an action's fixed amounts to the user, the domain's KOL and its inviter, then settles
      the self-increasing points. */
  function SettlingPoints(s: Ledger, dappId: DappId, user: Address, actionName: string, now: int): Result<Ledger>
  {
    if dappId !in s.dappInfos || s.dappInfos[dappId].pointsRules.None? then Failure(NullReference)
    else match FindRule(s.dappInfos[dappId].pointsRules.value, actionName)
      case None => Failure("There is no corresponding points rule set for this action.")
      case Some(rule) =>
        var domain := RegisteredDomain(s, dappId, user);
        var b1 := UpdatePointsPool(s.pointsBalance, user, domain, User, rule.pointName, rule.userPoints);
        if domain == s.dappInfos[dappId].officialDomain then SettlingSelfIncreasingPoints(s.(pointsBalance := b1), dappId, user, now)
        else if domain !in s.domainsMap then Failure(NullReference)
        else
          var relationship := s.domainsMap[domain];
          var b2 := UpdatePointsPool(b1, relationship.invitee, domain, Kol, rule.pointName, rule.kolPoints);
          var b3 := if relationship.inviter.Some?
                    then UpdatePointsPool(b2, relationship.inviter.value, domain, Inviter, rule.pointName, rule.inviterPoints)
                    else b2;
          SettlingSelfIncreasingPoints(s.(pointsBalance := b3), dappId, user, now)
  }

  /** The counters a join through a non-official domain raises. */
  function CountInvitation(s: Ledger, dappId: DappId, relationship: DomainRelationship): Ledger
  {
    s.(invitationCount := Increment(s.invitationCount, (dappId, relationship.invitee)),
       tierTwoInvitationCount := if relationship.inviter.Some?
                                 then Increment(s.tierTwoInvitationCount, (dappId, relationship.inviter.value))
                                 else s.tierTwoInvitationCount)
  }

  /** `Join`: binds a registrant to a domain of a dapp, once. `validDomain` is the host's
      domain-format check and `fromDappContract` the verdict of the dapp-contract-address check. */
  function Join(s: Ledger, validDomain: string -> bool, fromDappContract: bool, dappId: DappId,
                registrant: Option<Address>, domain: string, now: int): Result<Ledger>
  {
    if !s.initialized then Failure("Not initialized.")
    else if !fromDappContract then Failure("No permission.")
    else if registrant.None? then Failure("Invalid registrant address.")
    else if !validDomain(domain) then Failure("Invalid domain.")
    else if IsRegistered(s, dappId, registrant.value) then Failure("A dapp can only be registered once.")
    else
      var user := registrant.value;
      var s1 := s.(registrationMap := s.registrationMap[(dappId, user) := domain]);
      if dappId !in s1.dappInfos then Failure(NullReference)
      else if domain != s1.dappInfos[dappId].officialDomain && domain !in s1.domainsMap then Failure("Not exist domain.")
      else match SettlingPoints(s1, dappId, user, JoinAction, now)
        case Failure(e) => Failure(e)
        case Success(s2) =>
          var s3 := if domain != s1.dappInfos[dappId].officialDomain
                    then CountInvitation(s2, dappId, s1.domainsMap[domain])
                    else s2;
          Success(s3.(lastPointsUpdateTimes := s3.lastPointsUpdateTimes[CheckpointKey(dappId, user, User) := now]))
  }

  /** Whether a domain is on the reserved list: the lookup returns the matching entry, and an
      empty match counts as no match. */
  predicate IsReserved(reservedDomains: Option<seq<string>>, domain: string)
  {
    reservedDomains.Some? && domain in reservedDomains.value && domain != ""
  }

  /** `ApplyToBeAdvocate`: the sender gives `invitee` a vanity domain of a dapp and sponsors it. */
  function ApplyToBeAdvocate(s: Ledger, validDomain: string -> bool, sender: Address, dappId: Option<DappId>,
                             domain: string, invitee: Option<Address>): Result<Ledger>
  {
    if invitee.None? then Failure("Invalid invitee.")
    else if dappId.None? || dappId.value !in s.dappInfos then Failure("Invalid dapp id.")
    else if !(Count(s.applyDomainCount, (sender, dappId.value)) < s.maxApplyCount) then Failure("Apply count exceed the limit.")
    else if !validDomain(domain) then Failure("Invalid domain.")
    else if domain in s.domainsMap then Failure("Domain has Exist.")
    else if IsReserved(s.reservedDomains, domain) then Failure("This domain name is an officially reserved domain name")
    else
      var id := dappId.value;
      var kol := invitee.value;
      var s1 := s.(domainsMap := s.domainsMap[domain := DomainRelationship(domain, kol, if sender != kol then Some(sender) else None)]);
      if s1.dappInfos[id].pointsRules.None? then Failure(NullReference)
      else match FindRule(s1.dappInfos[id].pointsRules.value, ApplyAction)
        case None => Failure("There is no corresponding points rule set for apply.")
        case Some(rule) =>
          var b1 := UpdatePointsPool(s1.pointsBalance, kol, domain, Kol, rule.pointName, rule.kolPoints);
          var b2 := if sender != kol then UpdatePointsPool(b1, sender, domain, Inviter, rule.pointName, rule.inviterPoints) else b1;
          Success(s1.(pointsBalance := b2, applyDomainCount := Increment(s1.applyDomainCount, (sender, id))))
  }

  /** The points-changed detail an income produces; `balance` is read after the credit. */
  datatype PointsChangedDetail = PointsChangedDetail(
    dappId: DappId, pointsReceiver: Address, domain: string, incomeSourceType: IncomeSourceType,
    actionName: string, pointsName: string, increaseAmount: int, balance: int)

  function GeneratePointsDetail(s: Ledger, address: Address, domain: string, actionName: string,
                                sourceType: IncomeSourceType, pointName: string, amount: int,
                                dappId: DappId): PointsChangedDetail
  {
    PointsChangedDetail(dappId, address, domain, sourceType, actionName, pointName, amount,
                        BalanceOf(s, BalanceKey(address, domain, sourceType, pointName)))
  }
}
