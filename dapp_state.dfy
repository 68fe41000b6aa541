/** State of the dapp revision of the points contract: every `MappedState` the dapp files
    read or write, as one record. */
module DappState {
  import opened Common

  /** A dapp id (a `Hash`). */
  type DappId = seq<bv8>

  /** Who an income is paid to, and why. */
  datatype IncomeSourceType = User | Kol | Inviter

  /** One action rule of a dapp. The validator checks the two percent fields; settlement
      pays the two absolute fields `kolPoints` and `inviterPoints`. The same message is the
      dapp's self-increasing rule, whose `userPoints`, `kolPoints` and `inviterPoints` are
      per-second rates. */
  datatype PointsRule = PointsRule(
    actionName: string,
    pointName: string,
    userPoints: int,
    kolPoints: int,
    inviterPoints: int,
    kolPointsPercent: int,
    inviterPointsPercent: int)

  datatype DappInfo = DappInfo(
    dappAdmin: Option<Address>,
    officialDomain: string,
    dappContractAddress: Option<Address>,
    pointsRules: Option<seq<PointsRule>>)

  /** A vanity domain, its owner (the KOL, `Invitee`) and the owner's sponsor (`Inviter`). */
  datatype DomainRelationship = DomainRelationship(domain: string, invitee: Address, inviter: Option<Address>)

  /** Key of `PointsBalance[address][domain][type][pointName]`; the dapp is not part of it. */
  datatype BalanceKey = BalanceKey(address: Address, domain: string, sourceType: IncomeSourceType, pointName: string)

  /** Key of `LastPointsUpdateTimes[dappId][address][type]`; the domain is not part of it. */
  datatype CheckpointKey = CheckpointKey(dappId: DappId, address: Address, sourceType: IncomeSourceType)

  datatype Ledger = Ledger(
    initialized: bool,
    admin: Option<Address>,
    maxApplyCount: int,
    reservedDomains: Option<seq<string>>,
    dappInfos: map<DappId, DappInfo>,
    pointInfos: map<(DappId, string), PointInfo>,
    selfIncreasingPointsRules: map<DappId, PointsRule>,
    domainsMap: map<string, DomainRelationship>,
    registrationMap: map<(DappId, Address), string>,
    applyDomainCount: map<(Address, DappId), int>,
    invitationCount: map<(DappId, Address), int>,
    tierTwoInvitationCount: map<(DappId, Address), int>,
    lastPointsUpdateTimes: map<CheckpointKey, int>,
    pointsBalance: map<BalanceKey, int>)

  /** A balance read: an absent entry reads as 0. */
  function BalanceOf(s: Ledger, k: BalanceKey): int
  {
    Count(s.pointsBalance, k)
  }

  /** `RegistrationMap[dappId][address]`: the bound domain, or "" when absent. */
  function RegisteredDomain(s: Ledger, dappId: DappId, address: Address): string
  {
    if (dappId, address) in s.registrationMap then s.registrationMap[(dappId, address)] else ""
  }

  /** The write-once test of `Join`: a registration counts when its domain is not empty. */
  predicate IsRegistered(s: Ledger, dappId: DappId, address: Address)
  {
    RegisteredDomain(s, dappId, address) != ""
  }

  /** A state with nothing in any map. */
  function EmptyLedger(initialized: bool, admin: Option<Address>, maxApplyCount: int,
                       reservedDomains: Option<seq<string>>): Ledger
  {
    Ledger(initialized, admin, maxApplyCount, reservedDomains,
           map[], map[], map[], map[], map[], map[], map[], map[], map[], map[])
  }

  /** The invariant every public operation keeps:
      a User checkpoint exists only for a registered (dapp, address) pair;
      counters never go below zero;
      a domain relationship is stored under its own domain and never names its KOL as its inviter. */
  ghost predicate Inv(s: Ledger)
  {
    && (forall k :: k in s.lastPointsUpdateTimes && k.sourceType == User ==> (k.dappId, k.address) in s.registrationMap)
    && (forall k :: k in s.invitationCount ==> s.invitationCount[k] >= 0)
    && (forall k :: k in s.tierTwoInvitationCount ==> s.tierTwoInvitationCount[k] >= 0)
    && (forall k :: k in s.applyDomainCount ==> s.applyDomainCount[k] >= 0)
    && (forall d :: d in s.domainsMap ==>
          s.domainsMap[d].domain == d && s.domainsMap[d].inviter != Some(s.domainsMap[d].invitee))
  }

  lemma EmptyLedgerInv(initialized: bool, admin: Option<Address>, maxApplyCount: int,
                       reservedDomains: Option<seq<string>>)
    ensures Inv(EmptyLedger(initialized, admin, maxApplyCount, reservedDomains))
  {
  }
}
