/** What the settlement steps of the dapp revision guarantee: which balances a settlement
    credits and by how much, which checkpoints it moves, the write-once registration, the
    advocate-domain rules, the invariant every step keeps, and that balances only grow when
    the configured amounts are non-negative. */
module DappRecordProofs {
  import opened Common
  import opened DappState
  import opened DappRecord

  // ---------------------------------------------------------------------------------------
  // Reference definitions of what one settlement pays

  /** The fixed amounts one action pays at balance `k`: the rule's user amount to the user, its
      KOL amount to the domain's KOL and its inviter amount to the domain's inviter. */
  function ActionShare(s: Ledger, dappId: DappId, user: Address, domain: string, rule: PointsRule, k: BalanceKey): int
  {
    var owner := DomainOwner(s, dappId, domain);
    (if k == BalanceKey(user, domain, User, rule.pointName) then rule.userPoints else 0)
    + (if owner.Some? && k == BalanceKey(owner.value.invitee, domain, Kol, rule.pointName) then rule.kolPoints else 0)
    + (if owner.Some? && owner.value.inviter.Some? && k == BalanceKey(owner.value.inviter.value, domain, Inviter, rule.pointName)
       then rule.inviterPoints else 0)
  }

  /** The self-increasing points one settlement pays at balance `k`, each role from its own checkpoint. */
  function SelfIncreasingShare(s: Ledger, dappId: DappId, user: Address, domain: string, now: int, k: BalanceKey): int
    requires dappId in s.selfIncreasingPointsRules
  {
    var rule := s.selfIncreasingPointsRules[dappId];
    var owner := DomainOwner(s, dappId, domain);
    (if k == BalanceKey(user, domain, User, rule.pointName)
     then PendingSelfIncreasingPoints(s, dappId, user, User, rule.userPoints, now) else 0)
    + (if owner.Some? && k == BalanceKey(owner.value.invitee, domain, Kol, rule.pointName)
       then PendingSelfIncreasingPoints(s, dappId, owner.value.invitee, Kol, rule.kolPoints, now) else 0)
    + (if owner.Some? && owner.value.inviter.Some? && k == BalanceKey(owner.value.inviter.value, domain, Inviter, rule.pointName)
       then PendingSelfIncreasingPoints(s, dappId, owner.value.inviter.value, Inviter, rule.inviterPoints, now) else 0)
  }

  /** The checkpoints one self-increasing settlement moves: the user's only if it exists, the
      KOL's and the inviter's whenever the domain is not the official one. */
  function SettledRoles(s: Ledger, dappId: DappId, user: Address, domain: string): set<CheckpointKey>
  {
    var owner := DomainOwner(s, dappId, domain);
    (if CheckpointKey(dappId, user, User) in s.lastPointsUpdateTimes then {CheckpointKey(dappId, user, User)} else {})
    + (if owner.Some? then {CheckpointKey(dappId, owner.value.invitee, Kol)} else {})
    + (if owner.Some? && owner.value.inviter.Some? then {CheckpointKey(dappId, owner.value.inviter.value, Inviter)} else {})
  }

  function MoveCheckpoints(cps: map<CheckpointKey, int>, keys: set<CheckpointKey>, now: int): map<CheckpointKey, int>
  {
    map ck | ck in cps.Keys + keys :: if ck in keys then now else cps[ck]
  }

  // ---------------------------------------------------------------------------------------
  // Accrual arithmetic

  /** Accrual is linear in elapsed time: earning from t0 to t1 and then from t1 to t2 earns what
      one settlement from t0 to t2 earns. */
  lemma {:induction false} WaitingPointsAdditive(s: Ledger, dappId: DappId, address: Address, sourceType: IncomeSourceType,
                                                 t0: int, t1: int, t2: int, points: int)
    ensures CalculateWaitingSettledSelfIncreasingPoints(s, dappId, address, sourceType, t1, t0, points)
          + CalculateWaitingSettledSelfIncreasingPoints(s, dappId, address, sourceType, t2, t1, points)
         == CalculateWaitingSettledSelfIncreasingPoints(s, dappId, address, sourceType, t2, t0, points)
  {
    var m := Multiplier(s, dappId, address, sourceType);
    MulDistributes(points * m, t1 - t0, t2 - t1);
    assert points * (t1 - t0) * m == points * m * (t1 - t0);
    assert points * (t2 - t1) * m == points * m * (t2 - t1);
    assert points * (t2 - t0) * m == points * m * (t2 - t0);
  }

  lemma MulDistributes(a: int, x: int, y: int)
    ensures a * x + a * y == a * (x + y)
  {
  }

  /** A role's accrual is not negative when its rate and multiplier are not and time has not
      gone backwards. */
  lemma {:induction false} WaitingPointsNonNegative(s: Ledger, dappId: DappId, address: Address, sourceType: IncomeSourceType,
                                                    now: int, last: int, points: int)
    requires points >= 0 && last <= now && Multiplier(s, dappId, address, sourceType) >= 0
    ensures CalculateWaitingSettledSelfIncreasingPoints(s, dappId, address, sourceType, now, last, points) >= 0
  {
    var m := Multiplier(s, dappId, address, sourceType);
    assert points * (now - last) >= 0;
    assert points * (now - last) * m >= 0;
  }

  /** Settling a role twice, at t1 and then at t2, leaves the same state as settling it once at
      t2: lazily advanced checkpoints neither lose nor double-count accrual. */
  lemma {:induction false} SettleTwiceIsSettleOnce(s: Ledger, dappId: DappId, address: Address, sourceType: IncomeSourceType,
                                                   pointName: string, points: int, domain: string, t1: int, t2: int)
    requires CheckpointKey(dappId, address, sourceType) in s.lastPointsUpdateTimes
    ensures UpdateSelfIncreasingPoint(
              UpdateSelfIncreasingPoint(s, dappId, address, sourceType, pointName, points, domain, t1),
              dappId, address, sourceType, pointName, points, domain, t2)
         == UpdateSelfIncreasingPoint(s, dappId, address, sourceType, pointName, points, domain, t2)
  {
    var ck := CheckpointKey(dappId, address, sourceType);
    var bk := BalanceKey(address, domain, sourceType, pointName);
    var t0 := s.lastPointsUpdateTimes[ck];
    var s1 := UpdateSelfIncreasingPoint(s, dappId, address, sourceType, pointName, points, domain, t1);
    var s2 := UpdateSelfIncreasingPoint(s1, dappId, address, sourceType, pointName, points, domain, t2);
    var s3 := UpdateSelfIncreasingPoint(s, dappId, address, sourceType, pointName, points, domain, t2);
    assert Multiplier(s1, dappId, address, sourceType) == Multiplier(s, dappId, address, sourceType);
    WaitingPointsAdditive(s, dappId, address, sourceType, t0, t1, t2, points);
    assert BalanceOf(s2, bk) == BalanceOf(s3, bk);
    assert s2.pointsBalance == s3.pointsBalance by {
      assert s2.pointsBalance.Keys == s3.pointsBalance.Keys;
      forall k | k in s2.pointsBalance ensures s2.pointsBalance[k] == s3.pointsBalance[k] {
        if k != bk {
          assert BalanceOf(s2, k) == BalanceOf(s, k) == BalanceOf(s3, k);
        }
      }
    }
  }

  /** Zero elapsed time is a zero credit. */
  lemma ZeroElapsedCreditsNothing(s: Ledger, dappId: DappId, address: Address, sourceType: IncomeSourceType,
                                  pointName: string, points: int, domain: string, now: int)
    requires CheckpointKey(dappId, address, sourceType) in s.lastPointsUpdateTimes
    requires s.lastPointsUpdateTimes[CheckpointKey(dappId, address, sourceType)] == now
    ensures forall k :: BalanceOf(UpdateSelfIncreasingPoint(s, dappId, address, sourceType, pointName, points, domain, now), k)
                        == BalanceOf(s, k)
  {
  }

  // ---------------------------------------------------------------------------------------
  // Settlement of one action

  /** The fields a settlement reads besides the balances. */
  predicate SameSettlementInputs(s: Ledger, s': Ledger)
  {
    && s'.dappInfos == s.dappInfos && s'.domainsMap == s.domainsMap
    && s'.selfIncreasingPointsRules == s.selfIncreasingPointsRules
    && s'.lastPointsUpdateTimes == s.lastPointsUpdateTimes
    && s'.invitationCount == s.invitationCount && s'.tierTwoInvitationCount == s.tierTwoInvitationCount
  }

  /** Everything but the balances and the checkpoints. */
  predicate OnlyAccountsChanged(s: Ledger, r: Ledger)
  {
    r == s.(pointsBalance := r.pointsBalance, lastPointsUpdateTimes := r.lastPointsUpdateTimes)
  }

  lemma SharesFrame(s: Ledger, s': Ledger, dappId: DappId, user: Address, domain: string, now: int, rule: PointsRule, k: BalanceKey)
    requires SameSettlementInputs(s, s')
    ensures ActionShare(s', dappId, user, domain, rule, k) == ActionShare(s, dappId, user, domain, rule, k)
    ensures dappId in s.selfIncreasingPointsRules ==>
              SelfIncreasingShare(s', dappId, user, domain, now, k) == SelfIncreasingShare(s, dappId, user, domain, now, k)
    ensures SettledRoles(s', dappId, user, domain) == SettledRoles(s, dappId, user, domain)
  {
    if dappId in s.selfIncreasingPointsRules {
      var rule := s.selfIncreasingPointsRules[dappId];
      forall address, t, points
        ensures PendingSelfIncreasingPoints(s', dappId, address, t, points, now) == PendingSelfIncreasingPoints(s, dappId, address, t, points, now)
      {
        assert Multiplier(s', dappId, address, t) == Multiplier(s, dappId, address, t);
      }
    }
  }

  /** Settling one role leaves what a later role of the same settlement is owed unchanged. */
  lemma UpdateKeepsOtherPending(s: Ledger, dappId: DappId, address: Address, t: IncomeSourceType, pointName: string,
                                points: int, domain: string, now: int, address': Address, t': IncomeSourceType, points': int)
    requires CheckpointKey(dappId, address', t') != CheckpointKey(dappId, address, t)
    ensures PendingSelfIncreasingPoints(UpdateSelfIncreasingPoint(s, dappId, address, t, pointName, points, domain, now),
                                        dappId, address', t', points', now)
         == PendingSelfIncreasingPoints(s, dappId, address', t', points', now)
  {
    var s' := UpdateSelfIncreasingPoint(s, dappId, address, t, pointName, points, domain, now);
    assert Multiplier(s', dappId, address', t') == Multiplier(s, dappId, address', t');
  }

  /** The user's part of a self-increasing settlement: its own checkpoint, only if it exists. */
  function SettleUser(s: Ledger, dappId: DappId, user: Address, rule: PointsRule, domain: string, now: int): Ledger
  {
    if CheckpointKey(dappId, user, User) in s.lastPointsUpdateTimes
    then UpdateSelfIncreasingPoint(s, dappId, user, User, rule.pointName, rule.userPoints, domain, now)
    else s
  }

  lemma SettlingSelfIncreasingPointsOfficial(s: Ledger, dappId: DappId, user: Address, now: int, r: Ledger)
    requires SettlingSelfIncreasingPoints(s, dappId, user, now) == Success(r)
    requires DomainOwner(s, dappId, RegisteredDomain(s, dappId, user)).None?
    ensures dappId in s.selfIncreasingPointsRules && dappId in s.dappInfos
    ensures r == SettleUser(s, dappId, user, s.selfIncreasingPointsRules[dappId], RegisteredDomain(s, dappId, user), now)
  {
    assert RegisteredDomain(s, dappId, user) == s.dappInfos[dappId].officialDomain;
  }

  lemma SettlingSelfIncreasingPointsKol(s: Ledger, dappId: DappId, user: Address, now: int, r: Ledger)
    requires SettlingSelfIncreasingPoints(s, dappId, user, now) == Success(r)
    requires DomainOwner(s, dappId, RegisteredDomain(s, dappId, user)).Some?
    ensures dappId in s.selfIncreasingPointsRules && dappId in s.dappInfos
    ensures var rule := s.selfIncreasingPointsRules[dappId];
            var domain := RegisteredDomain(s, dappId, user);
            var rel := DomainOwner(s, dappId, domain).value;
            var s2 := UpdateSelfIncreasingPoint(SettleUser(s, dappId, user, rule, domain, now), dappId, rel.invitee, Kol,
                                                rule.pointName, rule.kolPoints, domain, now);
            r == if rel.inviter.None? then s2
                 else UpdateSelfIncreasingPoint(s2, dappId, rel.inviter.value, Inviter, rule.pointName, rule.inviterPoints, domain, now)
  {
    var domain := RegisteredDomain(s, dappId, user);
    assert domain != s.dappInfos[dappId].officialDomain && domain in s.domainsMap;
  }

  lemma SettleUserAndKolBalance(s: Ledger, dappId: DappId, user: Address, domain: string, now: int, k: BalanceKey)
    requires dappId in s.selfIncreasingPointsRules
    requires DomainOwner(s, dappId, domain).Some?
    ensures var rule := s.selfIncreasingPointsRules[dappId];
            var rel := DomainOwner(s, dappId, domain).value;
            var s2 := UpdateSelfIncreasingPoint(SettleUser(s, dappId, user, rule, domain, now), dappId, rel.invitee, Kol,
                                                rule.pointName, rule.kolPoints, domain, now);
            BalanceOf(s2, k)
            == BalanceOf(s, k)
               + (if k == BalanceKey(user, domain, User, rule.pointName)
                  then PendingSelfIncreasingPoints(s, dappId, user, User, rule.userPoints, now) else 0)
               + (if k == BalanceKey(rel.invitee, domain, Kol, rule.pointName)
                  then PendingSelfIncreasingPoints(s, dappId, rel.invitee, Kol, rule.kolPoints, now) else 0)
  {
    var rule := s.selfIncreasingPointsRules[dappId];
    var rel := DomainOwner(s, dappId, domain).value;
    if CheckpointKey(dappId, user, User) in s.lastPointsUpdateTimes {
      UpdateKeepsOtherPending(s, dappId, user, User, rule.pointName, rule.userPoints, domain, now, rel.invitee, Kol, rule.kolPoints);
    }
  }

  /** The KOL's and the inviter's part of a self-increasing settlement pays them their shares. */
  lemma SettleKolAndInviterBalance(s: Ledger, dappId: DappId, user: Address, domain: string, now: int, k: BalanceKey)
    requires dappId in s.selfIncreasingPointsRules
    requires DomainOwner(s, dappId, domain).Some?
    ensures var rule := s.selfIncreasingPointsRules[dappId];
            var rel := DomainOwner(s, dappId, domain).value;
            var s2 := UpdateSelfIncreasingPoint(SettleUser(s, dappId, user, rule, domain, now), dappId, rel.invitee, Kol,
                                                rule.pointName, rule.kolPoints, domain, now);
            var r := if rel.inviter.None? then s2
                     else UpdateSelfIncreasingPoint(s2, dappId, rel.inviter.value, Inviter, rule.pointName, rule.inviterPoints, domain, now);
            BalanceOf(r, k) == BalanceOf(s, k) + SelfIncreasingShare(s, dappId, user, domain, now, k)
  {
    var rule := s.selfIncreasingPointsRules[dappId];
    var rel := DomainOwner(s, dappId, domain).value;
    var s1 := SettleUser(s, dappId, user, rule, domain, now);
    SettleUserAndKolBalance(s, dappId, user, domain, now, k);
    if rel.inviter.Some? {
      if CheckpointKey(dappId, user, User) in s.lastPointsUpdateTimes {
        UpdateKeepsOtherPending(s, dappId, user, User, rule.pointName, rule.userPoints, domain, now,
                                rel.inviter.value, Inviter, rule.inviterPoints);
      }
      UpdateKeepsOtherPending(s1, dappId, rel.invitee, Kol, rule.pointName, rule.kolPoints, domain, now,
                              rel.inviter.value, Inviter, rule.inviterPoints);
    }
  }

  /** `SettlingSelfIncreasingPoints` pays exactly `SelfIncreasingShare`. */
  lemma SettlingSelfIncreasingPointsBalance(s: Ledger, dappId: DappId, user: Address, now: int, r: Ledger, k: BalanceKey)
    requires SettlingSelfIncreasingPoints(s, dappId, user, now) == Success(r)
    ensures dappId in s.selfIncreasingPointsRules && dappId in s.dappInfos
    ensures BalanceOf(r, k) == BalanceOf(s, k) + SelfIncreasingShare(s, dappId, user, RegisteredDomain(s, dappId, user), now, k)
  {
    if DomainOwner(s, dappId, RegisteredDomain(s, dappId, user)).None? {
      SettlingSelfIncreasingPointsOfficial(s, dappId, user, now, r);
    } else {
      SettlingSelfIncreasingPointsKolBalance(s, dappId, user, now, r, k);
    }
  }

  lemma SettlingSelfIncreasingPointsKolBalance(s: Ledger, dappId: DappId, user: Address, now: int, r: Ledger, k: BalanceKey)
    requires SettlingSelfIncreasingPoints(s, dappId, user, now) == Success(r)
    requires DomainOwner(s, dappId, RegisteredDomain(s, dappId, user)).Some?
    ensures dappId in s.selfIncreasingPointsRules
    ensures BalanceOf(r, k) == BalanceOf(s, k) + SelfIncreasingShare(s, dappId, user, RegisteredDomain(s, dappId, user), now, k)
  {
    SettlingSelfIncreasingPointsKol(s, dappId, user, now, r);
    SettleKolAndInviterBalance(s, dappId, user, RegisteredDomain(s, dappId, user), now, k);
  }

  lemma MoveNoCheckpoints(cps: map<CheckpointKey, int>, now: int)
    ensures MoveCheckpoints(cps, {}, now) == cps
  {
  }

  lemma MoveOneMoreCheckpoint(cps: map<CheckpointKey, int>, keys: set<CheckpointKey>, key: CheckpointKey, now: int)
    ensures MoveCheckpoints(cps, keys + {key}, now) == MoveCheckpoints(cps, keys, now)[key := now]
  {
  }

  lemma SettleUserCheckpoints(s: Ledger, dappId: DappId, user: Address, rule: PointsRule, domain: string, now: int)
    ensures var s1 := SettleUser(s, dappId, user, rule, domain, now);
            var uk := CheckpointKey(dappId, user, User);
            && OnlyAccountsChanged(s, s1)
            && s1.lastPointsUpdateTimes
               == MoveCheckpoints(s.lastPointsUpdateTimes, if uk in s.lastPointsUpdateTimes then {uk} else {}, now)
  {
    var uk := CheckpointKey(dappId, user, User);
    MoveNoCheckpoints(s.lastPointsUpdateTimes, now);
    if uk in s.lastPointsUpdateTimes {
      MoveOneMoreCheckpoint(s.lastPointsUpdateTimes, {}, uk, now);
      assert {} + {uk} == {uk};
    }
  }

  /** Settling one more role moves one more checkpoint. */
  lemma UpdateMovesCheckpoint(s0: Ledger, s: Ledger, keys: set<CheckpointKey>, dappId: DappId, address: Address,
                              t: IncomeSourceType, pointName: string, points: int, domain: string, now: int)
    requires OnlyAccountsChanged(s0, s)
    requires s.lastPointsUpdateTimes == MoveCheckpoints(s0.lastPointsUpdateTimes, keys, now)
    ensures var r := UpdateSelfIncreasingPoint(s, dappId, address, t, pointName, points, domain, now);
            && OnlyAccountsChanged(s0, r)
            && r.lastPointsUpdateTimes == MoveCheckpoints(s0.lastPointsUpdateTimes, keys + {CheckpointKey(dappId, address, t)}, now)
  {
    MoveOneMoreCheckpoint(s0.lastPointsUpdateTimes, keys, CheckpointKey(dappId, address, t), now);
  }

  lemma SettleKolAndInviterCheckpoints(s: Ledger, dappId: DappId, user: Address, domain: string, now: int)
    requires dappId in s.selfIncreasingPointsRules
    requires DomainOwner(s, dappId, domain).Some?
    ensures var rule := s.selfIncreasingPointsRules[dappId];
            var rel := DomainOwner(s, dappId, domain).value;
            var s2 := UpdateSelfIncreasingPoint(SettleUser(s, dappId, user, rule, domain, now), dappId, rel.invitee, Kol,
                                                rule.pointName, rule.kolPoints, domain, now);
            var r := if rel.inviter.None? then s2
                     else UpdateSelfIncreasingPoint(s2, dappId, rel.inviter.value, Inviter, rule.pointName, rule.inviterPoints, domain, now);
            && OnlyAccountsChanged(s, r)
            && r.lastPointsUpdateTimes == MoveCheckpoints(s.lastPointsUpdateTimes, SettledRoles(s, dappId, user, domain), now)
  {
    var rule := s.selfIncreasingPointsRules[dappId];
    var rel := DomainOwner(s, dappId, domain).value;
    var uk := CheckpointKey(dappId, user, User);
    var u: set<CheckpointKey> := if uk in s.lastPointsUpdateTimes then {uk} else {};
    var s1 := SettleUser(s, dappId, user, rule, domain, now);
    SettleUserCheckpoints(s, dappId, user, rule, domain, now);
    UpdateMovesCheckpoint(s, s1, u, dappId, rel.invitee, Kol, rule.pointName, rule.kolPoints, domain, now);
    var kk := CheckpointKey(dappId, rel.invitee, Kol);
    if rel.inviter.Some? {
      var s2 := UpdateSelfIncreasingPoint(s1, dappId, rel.invitee, Kol, rule.pointName, rule.kolPoints, domain, now);
      UpdateMovesCheckpoint(s, s2, u + {kk}, dappId, rel.inviter.value, Inviter, rule.pointName, rule.inviterPoints, domain, now);
    }
  }

  /** `SettlingSelfIncreasingPoints` moves exactly the checkpoints of `SettledRoles` to `now`
      and changes nothing but balances and checkpoints. */
  lemma SettlingSelfIncreasingPointsCheckpoints(s: Ledger, dappId: DappId, user: Address, now: int, r: Ledger)
    requires SettlingSelfIncreasingPoints(s, dappId, user, now) == Success(r)
    ensures OnlyAccountsChanged(s, r)
    ensures r.lastPointsUpdateTimes
         == MoveCheckpoints(s.lastPointsUpdateTimes, SettledRoles(s, dappId, user, RegisteredDomain(s, dappId, user)), now)
  {
    var domain := RegisteredDomain(s, dappId, user);
    if DomainOwner(s, dappId, domain).None? {
      SettlingSelfIncreasingPointsOfficial(s, dappId, user, now, r);
      SettleUserCheckpoints(s, dappId, user, s.selfIncreasingPointsRules[dappId], domain, now);
    } else {
      SettlingSelfIncreasingPointsKol(s, dappId, user, now, r);
      SettleKolAndInviterCheckpoints(s, dappId, user, domain, now);
    }
  }

  /** The balances after an action's fixed amounts are credited to the user and to the domain's KOL and inviter. */
  function CreditAction(s: Ledger, dappId: DappId, user: Address, domain: string, rule: PointsRule): map<BalanceKey, int>
  {
    var b1 := UpdatePointsPool(s.pointsBalance, user, domain, User, rule.pointName, rule.userPoints);
    var owner := DomainOwner(s, dappId, domain);
    if owner.None? then b1
    else
      var b2 := UpdatePointsPool(b1, owner.value.invitee, domain, Kol, rule.pointName, rule.kolPoints);
      if owner.value.inviter.Some?
      then UpdatePointsPool(b2, owner.value.inviter.value, domain, Inviter, rule.pointName, rule.inviterPoints)
      else b2
  }

  lemma CreditActionEffect(s: Ledger, dappId: DappId, user: Address, domain: string, rule: PointsRule, k: BalanceKey)
    ensures Count(CreditAction(s, dappId, user, domain, rule), k) == BalanceOf(s, k) + ActionShare(s, dappId, user, domain, rule, k)
  {
  }

  /** How `SettlingPoints` decomposes: the action's credit, then the self-increasing settlement. */
  lemma SettlingPointsShape(s: Ledger, dappId: DappId, user: Address, actionName: string, now: int, r: Ledger)
    requires SettlingPoints(s, dappId, user, actionName, now) == Success(r)
    ensures ActionRule(s, dappId, actionName).Some? && dappId in s.dappInfos
    ensures var domain := RegisteredDomain(s, dappId, user);
            && (domain == s.dappInfos[dappId].officialDomain || domain in s.domainsMap)
            && SettlingSelfIncreasingPoints(s.(pointsBalance := CreditAction(s, dappId, user, domain, ActionRule(s, dappId, actionName).value)),
                                            dappId, user, now) == Success(r)
  {
  }

  /** `SettlingPoints` pays the action's fixed amounts and the self-increasing share. */
  lemma SettlingPointsBalance(s: Ledger, dappId: DappId, user: Address, actionName: string, now: int, r: Ledger, k: BalanceKey)
    requires SettlingPoints(s, dappId, user, actionName, now) == Success(r)
    ensures ActionRule(s, dappId, actionName).Some? && dappId in s.selfIncreasingPointsRules
    ensures BalanceOf(r, k)
         == BalanceOf(s, k)
            + ActionShare(s, dappId, user, RegisteredDomain(s, dappId, user), ActionRule(s, dappId, actionName).value, k)
            + SelfIncreasingShare(s, dappId, user, RegisteredDomain(s, dappId, user), now, k)
  {
    SettlingPointsShape(s, dappId, user, actionName, now, r);
    var domain := RegisteredDomain(s, dappId, user);
    var rule := ActionRule(s, dappId, actionName).value;
    var credited := s.(pointsBalance := CreditAction(s, dappId, user, domain, rule));
    CreditActionEffect(s, dappId, user, domain, rule, k);
    SettlingSelfIncreasingPointsBalance(credited, dappId, user, now, r, k);
    assert RegisteredDomain(credited, dappId, user) == domain;
    SharesFrame(s, credited, dappId, user, domain, now, rule, k);
  }

  /** `SettlingPoints` moves the settled roles' checkpoints and changes nothing but balances and checkpoints. */
  lemma SettlingPointsCheckpoints(s: Ledger, dappId: DappId, user: Address, actionName: string, now: int, r: Ledger)
    requires SettlingPoints(s, dappId, user, actionName, now) == Success(r)
    ensures OnlyAccountsChanged(s, r)
    ensures r.lastPointsUpdateTimes
         == MoveCheckpoints(s.lastPointsUpdateTimes, SettledRoles(s, dappId, user, RegisteredDomain(s, dappId, user)), now)
  {
    SettlingPointsShape(s, dappId, user, actionName, now, r);
    var domain := RegisteredDomain(s, dappId, user);
    var rule := ActionRule(s, dappId, actionName).value;
    var credited := s.(pointsBalance := CreditAction(s, dappId, user, domain, rule));
    SettlingSelfIncreasingPointsCheckpoints(credited, dappId, user, now, r);
    assert RegisteredDomain(credited, dappId, user) == domain;
    SharesFrame(s, credited, dappId, user, domain, now, rule, BalanceKey(user, domain, User, rule.pointName));
  }

  /** `SettlingPoints` commits whenever the dapp, its action rule and its self-increasing rule
      exist and the user's domain is the official one or a recorded one. */
  lemma SettlingPointsSucceeds(s: Ledger, dappId: DappId, user: Address, actionName: string, now: int)
    requires dappId in s.dappInfos && ActionRule(s, dappId, actionName).Some? && dappId in s.selfIncreasingPointsRules
    requires RegisteredDomain(s, dappId, user) == s.dappInfos[dappId].officialDomain || RegisteredDomain(s, dappId, user) in s.domainsMap
    ensures SettlingPoints(s, dappId, user, actionName, now).Success?
  {
    var domain := RegisteredDomain(s, dappId, user);
    var rule := ActionRule(s, dappId, actionName).value;
    var credited := s.(pointsBalance := CreditAction(s, dappId, user, domain, rule));
    SettlingSelfIncreasingPointsSucceedsExactly(credited, dappId, user, now);
    assert SettlingPoints(s, dappId, user, actionName, now) == SettlingSelfIncreasingPoints(credited, dappId, user, now);
  }

  /** The self-increasing settlement commits exactly when the dapp and its self-increasing rule
      exist and the user's domain is the official one or a known one. */
  lemma SettlingSelfIncreasingPointsSucceedsExactly(s: Ledger, dappId: DappId, user: Address, now: int)
    ensures SettlingSelfIncreasingPoints(s, dappId, user, now).Success?
        <==> && dappId in s.selfIncreasingPointsRules && dappId in s.dappInfos
             && (RegisteredDomain(s, dappId, user) == s.dappInfos[dappId].officialDomain
                 || RegisteredDomain(s, dappId, user) in s.domainsMap)
  {
  }

  // ---------------------------------------------------------------------------------------
  // Join

  /** The registration `Join` writes first. */
  function Registered(s: Ledger, dappId: DappId, user: Address, domain: string): Ledger
  {
    s.(registrationMap := s.registrationMap[(dappId, user) := domain])
  }

  /** What `Join` does after the settlement: the counters of a non-official domain, then the user's clock. */
  function JoinBookkeeping(settled: Ledger, dappId: DappId, user: Address, owner: Option<DomainRelationship>, now: int): Ledger
  {
    var s3 := if owner.Some? then CountInvitation(settled, dappId, owner.value) else settled;
    s3.(lastPointsUpdateTimes := s3.lastPointsUpdateTimes[CheckpointKey(dappId, user, User) := now])
  }

  /** How a committed `Join` decomposes, and the guards it passed. */
  lemma JoinShape(s: Ledger, validDomain: string -> bool, fromDappContract: bool, dappId: DappId,
                  user: Address, domain: string, now: int, r: Ledger) returns (settled: Ledger)
    requires Join(s, validDomain, fromDappContract, dappId, Some(user), domain, now) == Success(r)
    ensures s.initialized && fromDappContract && validDomain(domain) && !IsRegistered(s, dappId, user)
    ensures dappId in s.dappInfos && (domain == s.dappInfos[dappId].officialDomain || domain in s.domainsMap)
    ensures SettlingPoints(Registered(s, dappId, user, domain), dappId, user, JoinAction, now) == Success(settled)
    ensures r == JoinBookkeeping(settled, dappId, user, DomainOwner(s, dappId, domain), now)
  {
    settled := SettlingPoints(Registered(s, dappId, user, domain), dappId, user, JoinAction, now).value;
  }

  /** The steps of a `Join` whose guards pass: the settlement, then the bookkeeping. */
  lemma JoinSteps(s: Ledger, validDomain: string -> bool, fromDappContract: bool, dappId: DappId,
                  user: Address, domain: string, now: int)
    requires s.initialized && fromDappContract && validDomain(domain) && !IsRegistered(s, dappId, user)
    requires dappId in s.dappInfos && (domain == s.dappInfos[dappId].officialDomain || domain in s.domainsMap)
    ensures var settling := SettlingPoints(Registered(s, dappId, user, domain), dappId, user, JoinAction, now);
            Join(s, validDomain, fromDappContract, dappId, Some(user), domain, now)
            == if settling.Success? then Success(JoinBookkeeping(settling.value, dappId, user, DomainOwner(s, dappId, domain), now))
               else Failure(settling.error)
  {
  }

  lemma RegisteredKeepsSettlementInputs(s: Ledger, dappId: DappId, user: Address, domain: string)
    ensures SameSettlementInputs(s, Registered(s, dappId, user, domain))
    ensures RegisteredDomain(Registered(s, dappId, user, domain), dappId, user) == domain
    ensures ActionRule(Registered(s, dappId, user, domain), dappId, JoinAction) == ActionRule(s, dappId, JoinAction)
  {
  }

  /** A committed `Join` pays the join action's fixed amounts and the self-increasing share,
      both computed on the state before the join (its counters are raised only afterwards). */
  lemma JoinBalance(s: Ledger, validDomain: string -> bool, fromDappContract: bool, dappId: DappId,
                    user: Address, domain: string, now: int, r: Ledger, k: BalanceKey)
    requires Join(s, validDomain, fromDappContract, dappId, Some(user), domain, now) == Success(r)
    ensures ActionRule(s, dappId, JoinAction).Some? && dappId in s.selfIncreasingPointsRules
    ensures BalanceOf(r, k)
         == BalanceOf(s, k)
            + ActionShare(s, dappId, user, domain, ActionRule(s, dappId, JoinAction).value, k)
            + SelfIncreasingShare(s, dappId, user, domain, now, k)
  {
    var settled := JoinShape(s, validDomain, fromDappContract, dappId, user, domain, now, r);
    var s1 := Registered(s, dappId, user, domain);
    RegisteredKeepsSettlementInputs(s, dappId, user, domain);
    SettlingPointsBalance(s1, dappId, user, JoinAction, now, settled, k);
    SharesFrame(s, s1, dappId, user, domain, now, ActionRule(s, dappId, JoinAction).value, k);
    assert BalanceOf(r, k) == BalanceOf(settled, k);
  }

  lemma CountInvitationEffect(s: Ledger, dappId: DappId, rel: DomainRelationship)
    ensures var r := CountInvitation(s, dappId, rel);
            && r == s.(invitationCount := r.invitationCount, tierTwoInvitationCount := r.tierTwoInvitationCount)
            && r.invitationCount == Increment(s.invitationCount, (dappId, rel.invitee))
            && r.tierTwoInvitationCount
               == (if rel.inviter.Some? then Increment(s.tierTwoInvitationCount, (dappId, rel.inviter.value))
                   else s.tierTwoInvitationCount)
  {
  }

  lemma JoinBookkeepingEffect(settled: Ledger, dappId: DappId, user: Address, owner: Option<DomainRelationship>, now: int)
    ensures var r := JoinBookkeeping(settled, dappId, user, owner, now);
            && r == settled.(lastPointsUpdateTimes := r.lastPointsUpdateTimes, invitationCount := r.invitationCount,
                             tierTwoInvitationCount := r.tierTwoInvitationCount)
            && r.lastPointsUpdateTimes == settled.lastPointsUpdateTimes[CheckpointKey(dappId, user, User) := now]
            && (owner.None? ==> r.invitationCount == settled.invitationCount && r.tierTwoInvitationCount == settled.tierTwoInvitationCount)
            && (owner.Some? ==>
                  && r.invitationCount == Increment(settled.invitationCount, (dappId, owner.value.invitee))
                  && r.tierTwoInvitationCount
                     == (if owner.value.inviter.Some?
                         then Increment(settled.tierTwoInvitationCount, (dappId, owner.value.inviter.value))
                         else settled.tierTwoInvitationCount))
  {
    if owner.Some? {
      CountInvitationEffect(settled, dappId, owner.value);
    } else {
    }
  }

  /** A committed `Join` binds the registrant to the domain, raises the KOL's and inviter's join
      counters by one for a non-official domain, and changes nothing else but balances and
      checkpoints. */
  lemma JoinRecords(s: Ledger, validDomain: string -> bool, fromDappContract: bool, dappId: DappId,
                    user: Address, domain: string, now: int, r: Ledger)
    requires Join(s, validDomain, fromDappContract, dappId, Some(user), domain, now) == Success(r)
    ensures r.registrationMap == s.registrationMap[(dappId, user) := domain]
    ensures DomainOwner(s, dappId, domain).None? ==>
              r.invitationCount == s.invitationCount && r.tierTwoInvitationCount == s.tierTwoInvitationCount
    ensures DomainOwner(s, dappId, domain).Some? ==>
              && r.invitationCount == Increment(s.invitationCount, (dappId, DomainOwner(s, dappId, domain).value.invitee))
              && r.tierTwoInvitationCount
                 == (if DomainOwner(s, dappId, domain).value.inviter.Some?
                     then Increment(s.tierTwoInvitationCount, (dappId, DomainOwner(s, dappId, domain).value.inviter.value))
                     else s.tierTwoInvitationCount)
    ensures r == s.(registrationMap := r.registrationMap, pointsBalance := r.pointsBalance,
                    lastPointsUpdateTimes := r.lastPointsUpdateTimes, invitationCount := r.invitationCount,
                    tierTwoInvitationCount := r.tierTwoInvitationCount)
  {
    var settled := JoinShape(s, validDomain, fromDappContract, dappId, user, domain, now, r);
    SettlingPointsCheckpoints(Registered(s, dappId, user, domain), dappId, user, JoinAction, now, settled);
    JoinBookkeepingEffect(settled, dappId, user, DomainOwner(s, dappId, domain), now);
  }

  /** A committed `Join` moves the settled roles' checkpoints and opens the registrant's User clock at `now`. */
  lemma JoinCheckpoints(s: Ledger, validDomain: string -> bool, fromDappContract: bool, dappId: DappId,
                        user: Address, domain: string, now: int, r: Ledger)
    requires Join(s, validDomain, fromDappContract, dappId, Some(user), domain, now) == Success(r)
    ensures r.lastPointsUpdateTimes
         == MoveCheckpoints(s.lastPointsUpdateTimes, SettledRoles(s, dappId, user, domain), now)[CheckpointKey(dappId, user, User) := now]
  {
    var settled := JoinShape(s, validDomain, fromDappContract, dappId, user, domain, now, r);
    var s1 := Registered(s, dappId, user, domain);
    RegisteredKeepsSettlementInputs(s, dappId, user, domain);
    SettlingPointsCheckpoints(s1, dappId, user, JoinAction, now, settled);
    SharesFrame(s, s1, dappId, user, domain, now, PointsRule("", "", 0, 0, 0, 0, 0), BalanceKey(user, domain, User, ""));
    JoinBookkeepingEffect(settled, dappId, user, DomainOwner(s, dappId, domain), now);
  }

  /** `Join` commits exactly when every guard of the source passes and the dapp has a "Join"
      rule and a self-increasing rule. */
  lemma JoinSucceedsExactly(s: Ledger, validDomain: string -> bool, fromDappContract: bool, dappId: DappId,
                            registrant: Option<Address>, domain: string, now: int)
    ensures Join(s, validDomain, fromDappContract, dappId, registrant, domain, now).Success?
        <==> && s.initialized && fromDappContract && registrant.Some? && validDomain(domain)
             && !IsRegistered(s, dappId, registrant.value)
             && dappId in s.dappInfos
             && (domain == s.dappInfos[dappId].officialDomain || domain in s.domainsMap)
             && ActionRule(s, dappId, JoinAction).Some?
             && dappId in s.selfIncreasingPointsRules
  {
    var res := Join(s, validDomain, fromDappContract, dappId, registrant, domain, now);
    if res.Success? {
      var settled := JoinShape(s, validDomain, fromDappContract, dappId, registrant.value, domain, now, res.value);
      RegisteredKeepsSettlementInputs(s, dappId, registrant.value, domain);
      SettlingPointsShape(Registered(s, dappId, registrant.value, domain), dappId, registrant.value, JoinAction, now, settled);
      JoinBalance(s, validDomain, fromDappContract, dappId, registrant.value, domain, now, res.value, BalanceKey(registrant.value, "", User, ""));
    } else if && s.initialized && fromDappContract && registrant.Some? && validDomain(domain)
              && !IsRegistered(s, dappId, registrant.value) && dappId in s.dappInfos
              && (domain == s.dappInfos[dappId].officialDomain || domain in s.domainsMap)
              && ActionRule(s, dappId, JoinAction).Some? && dappId in s.selfIncreasingPointsRules
    {
      var s1 := Registered(s, dappId, registrant.value, domain);
      RegisteredKeepsSettlementInputs(s, dappId, registrant.value, domain);
      SettlingPointsSucceeds(s1, dappId, registrant.value, JoinAction, now);
      assert false;
    }
  }

  /** Registration is write-once: after a committed `Join` with a non-empty domain, every later
      `Join` of the same registrant to the same dapp fails, and with "A dapp can only be
      registered once." as soon as the earlier guards pass. */
  lemma JoinOnlyOnce(s: Ledger, validDomain: string -> bool, fromDappContract: bool, dappId: DappId,
                     registrant: Address, domain: string, now: int, r: Ledger,
                     validDomain': string -> bool, fromDappContract': bool, domain': string, now': int)
    requires Join(s, validDomain, fromDappContract, dappId, Some(registrant), domain, now) == Success(r)
    requires domain != ""
    ensures Join(r, validDomain', fromDappContract', dappId, Some(registrant), domain', now').Failure?
    ensures fromDappContract' && validDomain'(domain') ==>
              Join(r, validDomain', fromDappContract', dappId, Some(registrant), domain', now')
              == Failure("A dapp can only be registered once.")
  {
    var _ := JoinShape(s, validDomain, fromDappContract, dappId, registrant, domain, now, r);
    JoinRecords(s, validDomain, fromDappContract, dappId, registrant, domain, now, r);
    assert r.initialized;
    assert IsRegistered(r, dappId, registrant);
  }

  /** A registrant joining for the first time has no User checkpoint, so the join pays it no
      self-increasing points: its User balance grows by the join action's amount alone. */
  lemma JoinFirstTimeEarnsNoAccrual(s: Ledger, validDomain: string -> bool, fromDappContract: bool, dappId: DappId,
                                    registrant: Address, domain: string, now: int, r: Ledger, pointName: string)
    requires Inv(s)
    requires (dappId, registrant) !in s.registrationMap
    requires Join(s, validDomain, fromDappContract, dappId, Some(registrant), domain, now) == Success(r)
    ensures ActionRule(s, dappId, JoinAction).Some?
    ensures BalanceOf(r, BalanceKey(registrant, domain, User, pointName))
         == BalanceOf(s, BalanceKey(registrant, domain, User, pointName))
            + (if ActionRule(s, dappId, JoinAction).value.pointName == pointName
               then ActionRule(s, dappId, JoinAction).value.userPoints else 0)
  {
    JoinBalance(s, validDomain, fromDappContract, dappId, registrant, domain, now, r, BalanceKey(registrant, domain, User, pointName));
    assert CheckpointKey(dappId, registrant, User) !in s.lastPointsUpdateTimes;
  }

  // ---------------------------------------------------------------------------------------
  // ApplyToBeAdvocate

  /** `ApplyToBeAdvocate` commits exactly when every guard of the source passes and the dapp has an "Apply" rule. */
  lemma ApplySucceedsExactly(s: Ledger, validDomain: string -> bool, sender: Address, dappId: Option<DappId>,
                             domain: string, invitee: Option<Address>)
    ensures ApplyToBeAdvocate(s, validDomain, sender, dappId, domain, invitee).Success?
        <==> && invitee.Some? && dappId.Some? && dappId.value in s.dappInfos
             && Count(s.applyDomainCount, (sender, dappId.value)) < s.maxApplyCount
             && validDomain(domain) && domain !in s.domainsMap && !IsReserved(s.reservedDomains, domain)
             && ActionRule(s, dappId.value, ApplyAction).Some?
  {
  }

  /** The balances after the "Apply" rule's amounts are paid to the KOL and, when distinct from it, to the sender. */
  function ApplyCredit(balances: map<BalanceKey, int>, sender: Address, invitee: Address, domain: string,
                       rule: PointsRule): map<BalanceKey, int>
  {
    var b1 := UpdatePointsPool(balances, invitee, domain, Kol, rule.pointName, rule.kolPoints);
    if sender != invitee then UpdatePointsPool(b1, sender, domain, Inviter, rule.pointName, rule.inviterPoints) else b1
  }

  /** How a committed `ApplyToBeAdvocate` decomposes: the guards that passed and the three writes. */
  lemma ApplyShape(s: Ledger, validDomain: string -> bool, sender: Address, dappId: DappId,
                   domain: string, invitee: Address, r: Ledger)
    requires ApplyToBeAdvocate(s, validDomain, sender, Some(dappId), domain, Some(invitee)) == Success(r)
    ensures ActionRule(s, dappId, ApplyAction).Some?
    ensures domain !in s.domainsMap && !IsReserved(s.reservedDomains, domain)
    ensures Count(s.applyDomainCount, (sender, dappId)) < s.maxApplyCount
    ensures r == s.(domainsMap := s.domainsMap[domain := DomainRelationship(domain, invitee, if sender == invitee then None else Some(sender))],
                    pointsBalance := ApplyCredit(s.pointsBalance, sender, invitee, domain, ActionRule(s, dappId, ApplyAction).value),
                    applyDomainCount := Increment(s.applyDomainCount, (sender, dappId)))
  {
  }

  /** The steps of an `ApplyToBeAdvocate` whose guards pass: the rule lookup, then the three writes. */
  lemma ApplySteps(s: Ledger, validDomain: string -> bool, sender: Address, dappId: DappId, domain: string, invitee: Address)
    requires dappId in s.dappInfos && Count(s.applyDomainCount, (sender, dappId)) < s.maxApplyCount
    requires validDomain(domain) && domain !in s.domainsMap && !IsReserved(s.reservedDomains, domain)
    ensures var rules := s.dappInfos[dappId].pointsRules;
            ApplyToBeAdvocate(s, validDomain, sender, Some(dappId), domain, Some(invitee))
            == if rules.None? then Failure(NullReference)
               else if FindRule(rules.value, ApplyAction).None? then Failure("There is no corresponding points rule set for apply.")
               else Success(s.(domainsMap := s.domainsMap[domain := DomainRelationship(domain, invitee, if sender != invitee then Some(sender) else None)],
                               pointsBalance := ApplyCredit(s.pointsBalance, sender, invitee, domain, FindRule(rules.value, ApplyAction).value),
                               applyDomainCount := Increment(s.applyDomainCount, (sender, dappId))))
  {
  }

  /** A committed `ApplyToBeAdvocate` records the domain with the invitee as its KOL and the
      sender as its inviter unless they are the same address, raises the sender's application
      count for the dapp by one, and changes nothing else but balances. */
  lemma ApplyRecords(s: Ledger, validDomain: string -> bool, sender: Address, dappId: DappId,
                     domain: string, invitee: Address, r: Ledger)
    requires ApplyToBeAdvocate(s, validDomain, sender, Some(dappId), domain, Some(invitee)) == Success(r)
    ensures ActionRule(s, dappId, ApplyAction).Some?
    ensures domain !in s.domainsMap && !IsReserved(s.reservedDomains, domain)
    ensures Count(s.applyDomainCount, (sender, dappId)) < s.maxApplyCount
    ensures r.domainsMap == s.domainsMap[domain := DomainRelationship(domain, invitee, if sender == invitee then None else Some(sender))]
    ensures r.applyDomainCount == Increment(s.applyDomainCount, (sender, dappId))
    ensures r == s.(domainsMap := r.domainsMap, applyDomainCount := r.applyDomainCount, pointsBalance := r.pointsBalance)
  {
    ApplyShape(s, validDomain, sender, dappId, domain, invitee, r);
  }

  /** A committed `ApplyToBeAdvocate` pays the "Apply" rule's KOL amount to the invitee and
      its inviter amount to a sender distinct from the invitee. */
  lemma ApplyBalance(s: Ledger, validDomain: string -> bool, sender: Address, dappId: DappId,
                     domain: string, invitee: Address, r: Ledger, k: BalanceKey)
    requires ApplyToBeAdvocate(s, validDomain, sender, Some(dappId), domain, Some(invitee)) == Success(r)
    ensures ActionRule(s, dappId, ApplyAction).Some?
    ensures var rule := ActionRule(s, dappId, ApplyAction).value;
            (BalanceOf(r, k)
             == BalanceOf(s, k)
                + (if k == BalanceKey(invitee, domain, Kol, rule.pointName) then rule.kolPoints else 0)
                + (if sender != invitee && k == BalanceKey(sender, domain, Inviter, rule.pointName) then rule.inviterPoints else 0))
  {
    ApplyShape(s, validDomain, sender, dappId, domain, invitee, r);
  }

  /** The application quota: once a sender has applied `maxApplyCount` times for a dapp, every
      further application for it fails. */
  lemma ApplyQuotaExhausted(s: Ledger, validDomain: string -> bool, sender: Address, dappId: DappId,
                            domain: string, invitee: Option<Address>)
    requires Count(s.applyDomainCount, (sender, dappId)) >= s.maxApplyCount
    ensures ApplyToBeAdvocate(s, validDomain, sender, Some(dappId), domain, invitee).Failure?
  {
  }

  /** A domain is given out once: after a committed application, a second application for the
      same domain fails. */
  lemma ApplyDomainOnce(s: Ledger, validDomain: string -> bool, sender: Address, dappId: DappId,
                        domain: string, invitee: Address, r: Ledger,
                        validDomain': string -> bool, sender': Address, dappId': DappId, invitee': Address)
    requires ApplyToBeAdvocate(s, validDomain, sender, Some(dappId), domain, Some(invitee)) == Success(r)
    ensures ApplyToBeAdvocate(r, validDomain', sender', Some(dappId'), domain, Some(invitee')).Failure?
  {
    ApplyRecords(s, validDomain, sender, dappId, domain, invitee, r);
    assert domain in r.domainsMap;
  }

  // ---------------------------------------------------------------------------------------
  // The invariant

  lemma SettledRolesUserKey(s: Ledger, dappId: DappId, user: Address, domain: string, k: CheckpointKey)
    requires k in SettledRoles(s, dappId, user, domain) && k.sourceType == User
    ensures k == CheckpointKey(dappId, user, User)
  {
  }

  lemma IncrementKeepsNonNegative<K(!new)>(m: map<K, int>, key: K)
    requires forall k :: k in m ==> m[k] >= 0
    ensures forall k :: k in Increment(m, key) ==> Increment(m, key)[k] >= 0
  {
  }

  lemma JoinKeepsCheckpointInv(s: Ledger, validDomain: string -> bool, fromDappContract: bool, dappId: DappId,
                               user: Address, domain: string, now: int, r: Ledger)
    requires Inv(s)
    requires Join(s, validDomain, fromDappContract, dappId, Some(user), domain, now) == Success(r)
    ensures forall k :: k in r.lastPointsUpdateTimes && k.sourceType == User ==> (k.dappId, k.address) in r.registrationMap
  {
    JoinRecords(s, validDomain, fromDappContract, dappId, user, domain, now, r);
    JoinCheckpoints(s, validDomain, fromDappContract, dappId, user, domain, now, r);
    forall k | k in r.lastPointsUpdateTimes && k.sourceType == User
      ensures (k.dappId, k.address) in r.registrationMap
    {
      if k in SettledRoles(s, dappId, user, domain) {
        SettledRolesUserKey(s, dappId, user, domain, k);
      }
    }
  }

  /** A committed `Join` keeps the invariant. */
  lemma JoinKeepsInv(s: Ledger, validDomain: string -> bool, fromDappContract: bool, dappId: DappId,
                     registrant: Option<Address>, domain: string, now: int)
    requires Inv(s)
    ensures Inv(Commit(s, Join(s, validDomain, fromDappContract, dappId, registrant, domain, now)))
  {
    var res := Join(s, validDomain, fromDappContract, dappId, registrant, domain, now);
    if res.Success? {
      var user := registrant.value;
      var r := res.value;
      JoinRecords(s, validDomain, fromDappContract, dappId, user, domain, now, r);
      JoinKeepsCheckpointInv(s, validDomain, fromDappContract, dappId, user, domain, now, r);
      var owner := DomainOwner(s, dappId, domain);
      if owner.Some? {
        IncrementKeepsNonNegative(s.invitationCount, (dappId, owner.value.invitee));
        if owner.value.inviter.Some? {
          IncrementKeepsNonNegative(s.tierTwoInvitationCount, (dappId, owner.value.inviter.value));
        }
      }
    }
  }

  /** A committed `ApplyToBeAdvocate` keeps the invariant. */
  lemma ApplyKeepsInv(s: Ledger, validDomain: string -> bool, sender: Address, dappId: Option<DappId>,
                      domain: string, invitee: Option<Address>)
    requires Inv(s)
    ensures Inv(Commit(s, ApplyToBeAdvocate(s, validDomain, sender, dappId, domain, invitee)))
  {
    var res := ApplyToBeAdvocate(s, validDomain, sender, dappId, domain, invitee);
    if res.Success? {
      ApplyRecords(s, validDomain, sender, dappId.value, domain, invitee.value, res.value);
      IncrementKeepsNonNegative(s.applyDomainCount, (sender, dappId.value));
    }
  }

  // ---------------------------------------------------------------------------------------
  // Balances only grow

  /** Every configured action and self-increasing amount is non-negative. The validators do not
      guarantee this: they check the percent fields, not `kolPoints` and `inviterPoints`. */
  ghost predicate AmountsNonNegative(s: Ledger)
  {
    && (forall d, i :: d in s.dappInfos && s.dappInfos[d].pointsRules.Some? && 0 <= i < |s.dappInfos[d].pointsRules.value| ==>
          var rule := s.dappInfos[d].pointsRules.value[i];
          rule.userPoints >= 0 && rule.kolPoints >= 0 && rule.inviterPoints >= 0)
    && (forall d :: d in s.selfIncreasingPointsRules ==>
          var rule := s.selfIncreasingPointsRules[d];
          rule.userPoints >= 0 && rule.kolPoints >= 0 && rule.inviterPoints >= 0)
  }

  /** No checkpoint lies after the current block time. */
  ghost predicate CheckpointsNotAfter(s: Ledger, now: int)
  {
    forall k :: k in s.lastPointsUpdateTimes ==> s.lastPointsUpdateTimes[k] <= now
  }

  lemma ActionRuleNonNegative(s: Ledger, dappId: DappId, actionName: string)
    requires AmountsNonNegative(s)
    requires ActionRule(s, dappId, actionName).Some?
    ensures var rule := ActionRule(s, dappId, actionName).value;
            rule.userPoints >= 0 && rule.kolPoints >= 0 && rule.inviterPoints >= 0
  {
    var rules := s.dappInfos[dappId].pointsRules.value;
    var i :| 0 <= i < |rules| && rules[i] == ActionRule(s, dappId, actionName).value;
  }

  lemma PendingNonNegative(s: Ledger, dappId: DappId, address: Address, t: IncomeSourceType, points: int, now: int)
    requires Inv(s) && CheckpointsNotAfter(s, now) && points >= 0
    ensures PendingSelfIncreasingPoints(s, dappId, address, t, points, now) >= 0
  {
    var ck := CheckpointKey(dappId, address, t);
    if ck in s.lastPointsUpdateTimes {
      assert Multiplier(s, dappId, address, t) >= 0;
      WaitingPointsNonNegative(s, dappId, address, t, now, s.lastPointsUpdateTimes[ck], points);
    }
  }

  lemma SelfIncreasingShareNonNegative(s: Ledger, dappId: DappId, user: Address, domain: string, now: int, k: BalanceKey)
    requires Inv(s) && AmountsNonNegative(s) && CheckpointsNotAfter(s, now)
    requires dappId in s.selfIncreasingPointsRules
    ensures SelfIncreasingShare(s, dappId, user, domain, now, k) >= 0
  {
    var rule := s.selfIncreasingPointsRules[dappId];
    var owner := DomainOwner(s, dappId, domain);
    PendingNonNegative(s, dappId, user, User, rule.userPoints, now);
    if owner.Some? {
      PendingNonNegative(s, dappId, owner.value.invitee, Kol, rule.kolPoints, now);
      if owner.value.inviter.Some? {
        PendingNonNegative(s, dappId, owner.value.inviter.value, Inviter, rule.inviterPoints, now);
      }
    }
  }

  /** With non-negative amounts and no checkpoint in the future, a committed `Join` lowers no
      balance and leaves no checkpoint in the future. */
  lemma JoinNeverLowersBalances(s: Ledger, validDomain: string -> bool, fromDappContract: bool, dappId: DappId,
                                registrant: Address, domain: string, now: int, r: Ledger, k: BalanceKey)
    requires Inv(s) && AmountsNonNegative(s) && CheckpointsNotAfter(s, now)
    requires Join(s, validDomain, fromDappContract, dappId, Some(registrant), domain, now) == Success(r)
    ensures BalanceOf(s, k) <= BalanceOf(r, k)
    ensures CheckpointsNotAfter(r, now)
  {
    JoinBalance(s, validDomain, fromDappContract, dappId, registrant, domain, now, r, k);
    JoinCheckpoints(s, validDomain, fromDappContract, dappId, registrant, domain, now, r);
    ActionRuleNonNegative(s, dappId, JoinAction);
    SelfIncreasingShareNonNegative(s, dappId, registrant, domain, now, k);
  }

  /** With non-negative amounts, a committed `ApplyToBeAdvocate` lowers no balance. */
  lemma ApplyNeverLowersBalances(s: Ledger, validDomain: string -> bool, sender: Address, dappId: DappId,
                                 domain: string, invitee: Address, r: Ledger, k: BalanceKey)
    requires AmountsNonNegative(s)
    requires ApplyToBeAdvocate(s, validDomain, sender, Some(dappId), domain, Some(invitee)) == Success(r)
    ensures BalanceOf(s, k) <= BalanceOf(r, k)
  {
    ApplyBalance(s, validDomain, sender, dappId, domain, invitee, r, k);
    ActionRuleNonNegative(s, dappId, ApplyAction);
  }
}
