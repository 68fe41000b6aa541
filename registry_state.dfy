/** State of the legacy revision of the points contract, the service registry: the fields of
    `PointsContractState` that its operations read or write, as one record. */
module RegistryState {
  import opened Common

  /** One earning rule of a service: the fixed amounts an action pays the user, the KOL and the
      inviter. */
  datatype EarningRule = EarningRule(actionName: string, pointName: string, userPoints: int, kolPoints: int,
                                     inviterPoints: int)

  /** An operator domain, the operator it was applied for (`Invitee`) and the applicant
      (`Inviter`, always the sender of the application). */
  datatype DomainOperatorRelationship = DomainOperatorRelationship(domain: string, invitee: Address, inviter: Address)

  /** What a registration stores: the domain the user came through and when. */
  datatype RegistrationInfo = RegistrationInfo(domain: string, createTime: int)

  /** One record of a registration batch; the registrant and the creation time are message
      fields that may be absent. */
  datatype RegistrationRecordDetail = RegistrationRecordDetail(domain: string, registrant: Option<Address>,
                                                               createTime: Option<int>)

  /** The records of a batch that belong to one service. */
  datatype RegistrationRecords = RegistrationRecords(service: string, details: seq<RegistrationRecordDetail>)

  /** One entry of a points settlement batch. */
  datatype PointsRecord = PointsRecord(dappName: string, pointerAddress: Address, pointsName: string, amount: int)

  /** Key of `PointsPool[dappName][address][pointsName]`. */
  datatype PoolKey = PoolKey(dappName: string, address: Address, pointsName: string)

  /** `MaxRecordListCount` and `MaxApplyCount` read 0 until `Initialize` sets them;
      `PointsInfos` is the map `PointsSettlement` checks names against, which no operation of
      this revision writes; `ApplyLimitMap` is neither read nor written and is not part of it. */
  datatype Registry = Registry(
    initialized: bool,
    admin: Option<Address>,
    reservedDomains: Option<seq<string>>,
    pointInfos: map<string, PointInfo>,
    servicesEarningRulesMap: map<string, seq<EarningRule>>,
    domainOperatorRelationshipMap: map<string, DomainOperatorRelationship>,
    applyCount: map<(Address, string), int>,
    registrationMap: map<(string, Address), RegistrationInfo>,
    maxRecordListCount: int,
    maxApplyCount: int,
    pointsPool: map<PoolKey, int>,
    pointsInfos: map<string, PointInfo>)

  /** A freshly deployed contract: nothing set. `pointsInfos` is whatever the deployment left
      in that map. */
  function Deployed(pointsInfos: map<string, PointInfo>): Registry
  {
    Registry(false, None, None, map[], map[], map[], map[], map[], 0, 0, map[], pointsInfos)
  }

  /** A points-pool read: an absent entry reads as 0. */
  function PoolBalance(s: Registry, k: PoolKey): int
  {
    Count(s.pointsPool, k)
  }
}
