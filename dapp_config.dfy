/** Dapp configuration of the dapp revision (PointsContract_Dapp.cs): adding a dapp, its
    action rules, its self-increasing rule and its points tokens, as transaction steps over a
    `Ledger`. `dappAdminCheck` is the verdict of the host's dapp-admin check: `None` when it
    passes, otherwise the message it aborts with. */
module DappConfig {
  import opened Common
  import opened DappState
  import opened DappRecord

  // ---------------------------------------------------------------------------------------
  // AddDapp

  /** `AddDapp`: the contract admin stores a new dapp under `dappId` (the host's fresh hash),
      with no action rules yet. */
  function AddDapp(s: Ledger, validDomain: string -> bool, sender: Address, dappId: DappId,
                   dappAdmin: Option<Address>, officialDomain: string, dappContractAddress: Option<Address>): Result<Ledger>
  {
    if !s.initialized then Failure("Not initialized.")
    else if s.admin != Some(sender) then Failure("No permission.")
    else if !validDomain(officialDomain) then Failure("Invalid domain.")
    else Success(s.(dappInfos := s.dappInfos[dappId := DappInfo(dappAdmin, officialDomain, dappContractAddress, None)]))
  }

  /** `AddDapp` commits exactly when the contract is initialised, the sender is the admin and the
      official domain passes the format check; it then stores the given admin, official domain
      and contract address with no rules, and touches nothing else. */
  lemma AddDappEffect(s: Ledger, validDomain: string -> bool, sender: Address, dappId: DappId,
                      dappAdmin: Option<Address>, officialDomain: string, dappContractAddress: Option<Address>)
    ensures AddDapp(s, validDomain, sender, dappId, dappAdmin, officialDomain, dappContractAddress).Success?
        <==> s.initialized && s.admin == Some(sender) && validDomain(officialDomain)
    ensures AddDapp(s, validDomain, sender, dappId, dappAdmin, officialDomain, dappContractAddress).Success? ==>
              var r := AddDapp(s, validDomain, sender, dappId, dappAdmin, officialDomain, dappContractAddress).value;
              && r == s.(dappInfos := r.dappInfos)
              && r.dappInfos.Keys == s.dappInfos.Keys + {dappId}
              && r.dappInfos[dappId].dappAdmin == dappAdmin
              && r.dappInfos[dappId].officialDomain == officialDomain
              && r.dappInfos[dappId].dappContractAddress == dappContractAddress
              && (forall a :: ActionRule(r, dappId, a).None?)
              && (forall d :: d in s.dappInfos && d != dappId ==> r.dappInfos[d] == s.dappInfos[d])
  {
  }

  // ---------------------------------------------------------------------------------------
  // SetDappPointsRules

  /** `PointInfos[dappId][pointName] != null`: the dapp has created the points token. */
  predicate PointRegistered(s: Ledger, dappId: DappId, pointName: string)
  {
    (dappId, pointName) in s.pointInfos
  }

  /** The first check of the action-rule validation that a rule fails, if any. */
  function PointsRuleError(s: Ledger, dappId: DappId, rule: PointsRule): Option<string>
  {
    if rule.pointName == "" || !PointRegistered(s, dappId, rule.pointName) then Some("Wrong points name input.")
    else if rule.actionName == "" then Some("ActionName cannot be empty.")
    else if !(rule.userPoints >= 0 && rule.kolPointsPercent > 0 && rule.inviterPointsPercent > 0)
    then Some("Points must be greater than 0.")
    else None
  }

  /** The error of the first invalid rule of a list: the whole list is rejected when any rule is. */
  function PointsRulesError(s: Ledger, dappId: DappId, rules: seq<PointsRule>): (r: Option<string>)
    ensures r.None? <==> forall i :: 0 <= i < |rules| ==> PointsRuleError(s, dappId, rules[i]).None?
    ensures r.Some? ==> exists i :: 0 <= i < |rules| && r == PointsRuleError(s, dappId, rules[i])
                                    && forall j :: 0 <= j < i ==> PointsRuleError(s, dappId, rules[j]).None?
  {
    if |rules| == 0 then None
    else if PointsRuleError(s, dappId, rules[0]).Some? then PointsRuleError(s, dappId, rules[0])
    else
      var r := PointsRulesError(s, dappId, rules[1..]);
      assert r.Some? ==> exists i :: 1 <= i < |rules| && r == PointsRuleError(s, dappId, rules[i])
                                     && forall j :: 0 <= j < i ==> PointsRuleError(s, dappId, rules[j]).None? by {
        if r.Some? {
          var i :| 0 <= i < |rules[1..]| && r == PointsRuleError(s, dappId, rules[1..][i])
                   && forall j :: 0 <= j < i ==> PointsRuleError(s, dappId, rules[1..][j]).None?;
          forall j | 0 <= j < i + 1 ensures PointsRuleError(s, dappId, rules[j]).None? {
            if j > 0 { assert rules[j] == rules[1..][j - 1]; }
          }
        }
      }
      assert r.None? ==> forall i :: 0 <= i < |rules| ==> PointsRuleError(s, dappId, rules[i]).None? by {
        if r.None? {
          forall i | 0 <= i < |rules| ensures PointsRuleError(s, dappId, rules[i]).None? {
            if i > 0 { assert rules[i] == rules[1..][i - 1]; }
          }
        }
      }
      r
  }

  /** `SetDappPointsRules`: validates every rule, then replaces the dapp's rule list.
      `rules` is `DappPointsRules`, a message field that may be absent. */
  function SetDappPointsRules(s: Ledger, dappAdminCheck: Option<string>, dappId: DappId,
                              rules: Option<seq<PointsRule>>): Result<Ledger>
  {
    if !s.initialized then Failure("Not initialized.")
    else if dappAdminCheck.Some? then Failure(dappAdminCheck.value)
    else if rules.None? then Failure(NullReference)
    else if PointsRulesError(s, dappId, rules.value).Some? then Failure(PointsRulesError(s, dappId, rules.value).value)
    else if dappId !in s.dappInfos then Failure(NullReference)
    else
      var info := s.dappInfos[dappId];
      Success(s.(dappInfos := s.dappInfos[dappId := DappInfo(info.dappAdmin, info.officialDomain, info.dappContractAddress, Some(rules.value))]))
  }

  /** `SetDappPointsRules` commits exactly when the guards pass and every rule of the list is
      valid; a single invalid rule rejects the whole list. */
  lemma SetDappPointsRulesSucceedsExactly(s: Ledger, dappAdminCheck: Option<string>, dappId: DappId,
                                          rules: Option<seq<PointsRule>>)
    ensures SetDappPointsRules(s, dappAdminCheck, dappId, rules).Success?
        <==> && s.initialized && dappAdminCheck.None? && rules.Some? && dappId in s.dappInfos
             && forall i :: 0 <= i < |rules.value| ==> PointsRuleError(s, dappId, rules.value[i]).None?
  {
  }

  /** A rule with an empty or unregistered point name, an empty action name, a negative user
      amount or a non-positive percent makes the call fail with that rule's message, unless an
      earlier rule already failed. */
  lemma SetDappPointsRulesRejectsInvalid(s: Ledger, dappAdminCheck: Option<string>, dappId: DappId,
                                         rules: seq<PointsRule>, i: int)
    requires s.initialized && dappAdminCheck.None?
    requires 0 <= i < |rules| && PointsRuleError(s, dappId, rules[i]).Some?
    requires forall j :: 0 <= j < i ==> PointsRuleError(s, dappId, rules[j]).None?
    ensures SetDappPointsRules(s, dappAdminCheck, dappId, Some(rules)) == Failure(PointsRuleError(s, dappId, rules[i]).value)
  {
    FirstRuleError(s, dappId, rules, i);
  }

  /** The list's error is the error of its first invalid rule. */
  lemma FirstRuleError(s: Ledger, dappId: DappId, rules: seq<PointsRule>, i: int)
    requires 0 <= i < |rules| && PointsRuleError(s, dappId, rules[i]).Some?
    requires forall j :: 0 <= j < i ==> PointsRuleError(s, dappId, rules[j]).None?
    ensures PointsRulesError(s, dappId, rules) == PointsRuleError(s, dappId, rules[i])
  {
    var e := PointsRulesError(s, dappId, rules);
    var k :| 0 <= k < |rules| && e == PointsRuleError(s, dappId, rules[k])
             && forall j :: 0 <= j < k ==> PointsRuleError(s, dappId, rules[j]).None?;
    assert k == i;
  }

  /** A committed `SetDappPointsRules` replaces the rule list and keeps the dapp's admin, official
      domain and contract address; nothing else changes. */
  lemma SetDappPointsRulesRecords(s: Ledger, dappAdminCheck: Option<string>, dappId: DappId,
                                  rules: Option<seq<PointsRule>>, r: Ledger)
    requires SetDappPointsRules(s, dappAdminCheck, dappId, rules) == Success(r)
    ensures dappId in s.dappInfos && rules.Some?
    ensures r == s.(dappInfos := s.dappInfos[dappId := s.dappInfos[dappId].(pointsRules := Some(rules.value))])
    ensures forall a :: ActionRule(r, dappId, a) == FindRule(rules.value, a)
  {
  }

  // ---------------------------------------------------------------------------------------
  // SetSelfIncreasingPointsRules

  /** `SetSelfIncreasingPointsRules`: validates one rule and stores it, replacing an earlier one. */
  function SetSelfIncreasingPointsRules(s: Ledger, dappAdminCheck: Option<string>, dappId: DappId,
                                        rule: Option<PointsRule>): Result<Ledger>
  {
    if !s.initialized then Failure("Not initialized.")
    else if dappAdminCheck.Some? then Failure(dappAdminCheck.value)
    else if rule.None? then Failure("Invalid self-increasing points rules.")
    else if rule.value.pointName == "" || !PointRegistered(s, dappId, rule.value.pointName) then Failure("Wrong points name input.")
    else if !(rule.value.userPoints > 0 && rule.value.kolPointsPercent > 0 && rule.value.inviterPointsPercent > 0)
    then Failure("Points must be greater than 0.")
    else Success(s.(selfIncreasingPointsRules := s.selfIncreasingPointsRules[dappId := rule.value]))
  }

  /** `SetSelfIncreasingPointsRules` commits exactly when a rule is given whose point name is
      registered and whose user amount and two percents are positive; it then stores that rule
      and changes nothing else. */
  lemma SetSelfIncreasingPointsRulesEffect(s: Ledger, dappAdminCheck: Option<string>, dappId: DappId,
                                           rule: Option<PointsRule>)
    ensures SetSelfIncreasingPointsRules(s, dappAdminCheck, dappId, rule).Success?
        <==> && s.initialized && dappAdminCheck.None? && rule.Some?
             && rule.value.pointName != "" && PointRegistered(s, dappId, rule.value.pointName)
             && rule.value.userPoints > 0 && rule.value.kolPointsPercent > 0 && rule.value.inviterPointsPercent > 0
    ensures SetSelfIncreasingPointsRules(s, dappAdminCheck, dappId, rule).Success? ==>
              var r := SetSelfIncreasingPointsRules(s, dappAdminCheck, dappId, rule).value;
              && r.selfIncreasingPointsRules[dappId] == rule.value
              && r == s.(selfIncreasingPointsRules := r.selfIncreasingPointsRules)
              && forall d :: d != dappId ==>
                   (d in r.selfIncreasingPointsRules <==> d in s.selfIncreasingPointsRules)
                   && (d in s.selfIncreasingPointsRules ==> r.selfIncreasingPointsRules[d] == s.selfIncreasingPointsRules[d])
  {
  }

  /** There is no once-only guard: a second valid rule replaces the first. */
  lemma SelfIncreasingRuleOverwritten(s: Ledger, dappAdminCheck: Option<string>, dappId: DappId,
                                      first: PointsRule, second: PointsRule, r1: Ledger)
    requires SetSelfIncreasingPointsRules(s, dappAdminCheck, dappId, Some(first)) == Success(r1)
    requires second.pointName != "" && PointRegistered(s, dappId, second.pointName)
    requires second.userPoints > 0 && second.kolPointsPercent > 0 && second.inviterPointsPercent > 0
    ensures SetSelfIncreasingPointsRules(r1, dappAdminCheck, dappId, Some(second)).Success?
    ensures SetSelfIncreasingPointsRules(r1, dappAdminCheck, dappId, Some(second)).value.selfIncreasingPointsRules[dappId] == second
  {
    SetSelfIncreasingPointsRulesEffect(s, dappAdminCheck, dappId, Some(first));
    assert PointRegistered(r1, dappId, second.pointName);
  }

  // ---------------------------------------------------------------------------------------
  // Points tokens

  /** `AssertValidCreateInput`: the name has 1 to 80 UTF-16 code units, the decimals are 0 to 18,
      and no token of that name exists (a stored default `PointInfo` counts as none). */
  function CreateInputError(s: Ledger, dappId: DappId, pointsName: string, decimals: int): Option<string>
  {
    if !(0 < Utf16Length(pointsName) <= TokenNameLength && 0 <= decimals <= MaxDecimals) then Some("Invalid input.")
    else if (dappId, pointsName) in s.pointInfos && s.pointInfos[(dappId, pointsName)] != EmptyPointInfo
    then Some("Point token already exists.")
    else None
  }

  /** `SetPoint`: stores the token's metadata under its name. */
  function SetPoint(s: Ledger, dappId: DappId, pointsName: string, decimals: int): (r: Ledger)
    ensures PointRegistered(r, dappId, pointsName)
    ensures r.pointInfos[(dappId, pointsName)] == PointInfo(pointsName, decimals)
    ensures r == s.(pointInfos := r.pointInfos)
    ensures forall key :: key != (dappId, pointsName) ==>
              (key in r.pointInfos <==> key in s.pointInfos) && (key in s.pointInfos ==> r.pointInfos[key] == s.pointInfos[key])
  {
    s.(pointInfos := s.pointInfos[(dappId, pointsName) := PointInfo(pointsName, decimals)])
  }

  /** `CreatePoint`: creates one points token of a dapp. */
  function CreatePoint(s: Ledger, dappAdminCheck: Option<string>, dappId: DappId, pointsName: string, decimals: int): Result<Ledger>
  {
    if !s.initialized then Failure("Not initialized.")
    else if dappAdminCheck.Some? then Failure(dappAdminCheck.value)
    else if CreateInputError(s, dappId, pointsName, decimals).Some? then Failure(CreateInputError(s, dappId, pointsName, decimals).value)
    else Success(SetPoint(s, dappId, pointsName, decimals))
  }

  /** `CreatePoint` commits exactly when the name has 1 to 80 UTF-16 code units, the decimals are
      0 to 18 and the name is not taken; it then stores exactly that token. */
  lemma CreatePointEffect(s: Ledger, dappAdminCheck: Option<string>, dappId: DappId, pointsName: string, decimals: int)
    ensures CreatePoint(s, dappAdminCheck, dappId, pointsName, decimals).Success?
        <==> && s.initialized && dappAdminCheck.None?
             && 0 < Utf16Length(pointsName) <= 80 && 0 <= decimals <= 18
             && ((dappId, pointsName) in s.pointInfos ==> s.pointInfos[(dappId, pointsName)] == PointInfo("", 0))
    ensures CreatePoint(s, dappAdminCheck, dappId, pointsName, decimals).Success? ==>
              CreatePoint(s, dappAdminCheck, dappId, pointsName, decimals).value
              == s.(pointInfos := s.pointInfos[(dappId, pointsName) := PointInfo(pointsName, decimals)])
  {
  }

  /** The name bound counts UTF-16 code units: 41 characters above U+FFFF are 82 units, so such a
      name is rejected although it has fewer than 80 characters. */
  lemma CreatePointCountsUtf16Units(s: Ledger, dappId: DappId, pointsName: string, decimals: int)
    requires s.initialized && 40 < |pointsName|
    requires forall i :: 0 <= i < |pointsName| ==> pointsName[i] as int > 0xFFFF
    ensures CreatePoint(s, None, dappId, pointsName, decimals) == Failure("Invalid input.")
  {
  }

  /** A token name is taken once: creating it a second time fails. */
  lemma CreatePointTwiceFails(s: Ledger, dappAdminCheck: Option<string>, dappId: DappId, pointsName: string,
                              decimals: int, decimals': int, r: Ledger)
    requires CreatePoint(s, dappAdminCheck, dappId, pointsName, decimals) == Success(r)
    ensures CreatePoint(r, dappAdminCheck, dappId, pointsName, decimals') == Failure("Point token already exists.")
        || CreatePoint(r, dappAdminCheck, dappId, pointsName, decimals') == Failure("Invalid input.")
    ensures 0 <= decimals' <= MaxDecimals ==>
              CreatePoint(r, dappAdminCheck, dappId, pointsName, decimals') == Failure("Point token already exists.")
  {
  }

  /** The loop of `CreatePointList`: validates and stores each entry in turn, so an entry is
      checked against the ones stored before it. */
  function CreatePoints(s: Ledger, dappId: DappId, points: seq<PointInfo>): Result<Ledger>
    decreases |points|
  {
    if |points| == 0 then Success(s)
    else
      var err := CreateInputError(s, dappId, points[0].tokenName, points[0].decimals);
      if err.Some? then Failure(err.value)
      else CreatePoints(SetPoint(s, dappId, points[0].tokenName, points[0].decimals), dappId, points[1..])
  }

  /** `CreatePointList`: creates a non-empty list of points tokens, all or none. */
  function CreatePointList(s: Ledger, dappAdminCheck: Option<string>, dappId: DappId, points: seq<PointInfo>): Result<Ledger>
  {
    if !s.initialized then Failure("Not initialized.")
    else if dappAdminCheck.Some? then Failure(dappAdminCheck.value)
    else if |points| == 0 then Failure("Invalid input.")
    else CreatePoints(s, dappId, points)
  }

  /** An empty list is rejected. */
  lemma CreatePointListRejectsEmpty(s: Ledger, dappAdminCheck: Option<string>, dappId: DappId)
    requires s.initialized && dappAdminCheck.None?
    ensures CreatePointList(s, dappAdminCheck, dappId, []) == Failure("Invalid input.")
  {
  }

  /** A token that already exists makes every later list that names it fail. */
  lemma {:induction false} CreatePointsFailsOnExisting(s: Ledger, dappId: DappId, points: seq<PointInfo>, j: int)
    requires 0 <= j < |points|
    requires (dappId, points[j].tokenName) in s.pointInfos && s.pointInfos[(dappId, points[j].tokenName)] != EmptyPointInfo
    ensures CreatePoints(s, dappId, points).Failure?
    decreases |points|
  {
    var err := CreateInputError(s, dappId, points[0].tokenName, points[0].decimals);
    if j == 0 {
      assert err.Some?;
    } else if err.None? {
      var s1 := SetPoint(s, dappId, points[0].tokenName, points[0].decimals);
      assert points[0].tokenName != points[j].tokenName;
      assert points[1..][j - 1] == points[j];
      CreatePointsFailsOnExisting(s1, dappId, points[1..], j - 1);
    }
  }

  /** Because each entry is stored before the next one is checked, a list that names the same
      token twice fails. */
  lemma {:induction false} CreatePointsRejectsRepeats(s: Ledger, dappId: DappId, points: seq<PointInfo>, i: int, j: int)
    requires 0 <= i < j < |points| && points[i].tokenName == points[j].tokenName
    ensures CreatePoints(s, dappId, points).Failure?
    decreases |points|
  {
    var err := CreateInputError(s, dappId, points[0].tokenName, points[0].decimals);
    if err.None? {
      var s1 := SetPoint(s, dappId, points[0].tokenName, points[0].decimals);
      assert points[1..][j - 1] == points[j];
      if i == 0 {
        assert |points[0].tokenName| > 0;
        CreatePointsFailsOnExisting(s1, dappId, points[1..], j - 1);
      } else {
        assert points[1..][i - 1] == points[i];
        CreatePointsRejectsRepeats(s1, dappId, points[1..], i - 1, j - 1);
      }
    }
  }

  /** A committed list stores every entry under its own name and changes nothing but the
      points tokens. */
  lemma {:induction false} CreatePointsStoresAll(s: Ledger, dappId: DappId, points: seq<PointInfo>, r: Ledger)
    requires CreatePoints(s, dappId, points) == Success(r)
    ensures r == s.(pointInfos := r.pointInfos)
    ensures forall i :: 0 <= i < |points| ==>
              (dappId, points[i].tokenName) in r.pointInfos && r.pointInfos[(dappId, points[i].tokenName)] == points[i]
    ensures forall key :: key in s.pointInfos && (key.0 != dappId || forall i :: 0 <= i < |points| ==> key.1 != points[i].tokenName)
              ==> key in r.pointInfos && r.pointInfos[key] == s.pointInfos[key]
    ensures forall key :: key in r.pointInfos ==>
              key in s.pointInfos || (key.0 == dappId && exists i :: 0 <= i < |points| && key.1 == points[i].tokenName)
    decreases |points|
  {
    if |points| > 0 {
      var s1 := SetPoint(s, dappId, points[0].tokenName, points[0].decimals);
      CreatePointsStoresAll(s1, dappId, points[1..], r);
      forall key | key in r.pointInfos
        ensures key in s.pointInfos || (key.0 == dappId && exists i :: 0 <= i < |points| && key.1 == points[i].tokenName)
      {
        if key !in s1.pointInfos {
          var i :| 0 <= i < |points[1..]| && key.1 == points[1..][i].tokenName;
          assert points[1..][i] == points[i + 1];
        } else if key !in s.pointInfos {
          assert key.1 == points[0].tokenName;
        }
      }
      forall i | 0 <= i < |points|
        ensures (dappId, points[i].tokenName) in r.pointInfos && r.pointInfos[(dappId, points[i].tokenName)] == points[i]
      {
        if i == 0 {
          if exists m :: 0 <= m < |points[1..]| && points[1..][m].tokenName == points[0].tokenName {
            var m :| 0 <= m < |points[1..]| && points[1..][m].tokenName == points[0].tokenName;
            CreatePointsRejectsRepeats(s, dappId, points, 0, m + 1);
            assert false;
          }
        } else {
          assert points[i] == points[1..][i - 1];
        }
      }
      forall key | key in s.pointInfos && (key.0 != dappId || forall i :: 0 <= i < |points| ==> key.1 != points[i].tokenName)
        ensures key in r.pointInfos && r.pointInfos[key] == s.pointInfos[key]
      {
        if key.0 == dappId {
          forall i | 0 <= i < |points[1..]| ensures key.1 != points[1..][i].tokenName {
            assert points[1..][i] == points[i + 1];
          }
        }
      }
    }
  }

  /** Every entry of a committed list passed the input check against the state before the list:
      an entry stored earlier in the same list only differs from it in another name. */
  lemma {:induction false} CreatePointsChecksEach(s: Ledger, dappId: DappId, points: seq<PointInfo>, r: Ledger)
    requires CreatePoints(s, dappId, points) == Success(r)
    ensures forall i :: 0 <= i < |points| ==> CreateInputError(s, dappId, points[i].tokenName, points[i].decimals).None?
    decreases |points|
  {
    if |points| > 0 {
      var s1 := SetPoint(s, dappId, points[0].tokenName, points[0].decimals);
      CreatePointsChecksEach(s1, dappId, points[1..], r);
      forall i | 1 <= i < |points|
        ensures CreateInputError(s, dappId, points[i].tokenName, points[i].decimals).None?
      {
        assert points[i] == points[1..][i - 1];
        if points[i].tokenName == points[0].tokenName {
          CreatePointsRejectsRepeats(s, dappId, points, 0, i);
        }
        assert CreateInputError(s1, dappId, points[i].tokenName, points[i].decimals)
            == CreateInputError(s, dappId, points[i].tokenName, points[i].decimals);
      }
    }
  }

  /** A list whose entries each pass the input check and whose names are pairwise distinct is
      stored in full. */
  lemma {:induction false} CreatePointsSucceeds(s: Ledger, dappId: DappId, points: seq<PointInfo>)
    requires forall i :: 0 <= i < |points| ==> CreateInputError(s, dappId, points[i].tokenName, points[i].decimals).None?
    requires forall i, j :: 0 <= i < j < |points| ==> points[i].tokenName != points[j].tokenName
    ensures CreatePoints(s, dappId, points).Success?
    decreases |points|
  {
    if |points| > 0 {
      var s1 := SetPoint(s, dappId, points[0].tokenName, points[0].decimals);
      forall i | 0 <= i < |points[1..]|
        ensures CreateInputError(s1, dappId, points[1..][i].tokenName, points[1..][i].decimals).None?
      {
        assert points[1..][i] == points[i + 1];
        assert CreateInputError(s1, dappId, points[i + 1].tokenName, points[i + 1].decimals)
            == CreateInputError(s, dappId, points[i + 1].tokenName, points[i + 1].decimals);
      }
      forall i, j | 0 <= i < j < |points[1..]| ensures points[1..][i].tokenName != points[1..][j].tokenName {
        assert points[1..][i] == points[i + 1] && points[1..][j] == points[j + 1];
      }
      CreatePointsSucceeds(s1, dappId, points[1..]);
    }
  }

  /** A committed `CreatePointList` passed the guards on a non-empty list whose names are pairwise
      distinct and whose entries each have a name of 1 to 80 UTF-16 code units, 0 to 18 decimals
      and a name not yet taken; it stores every entry and changes nothing but the points tokens. */
  lemma CreatePointListEffect(s: Ledger, dappAdminCheck: Option<string>, dappId: DappId, points: seq<PointInfo>, r: Ledger)
    requires CreatePointList(s, dappAdminCheck, dappId, points) == Success(r)
    ensures s.initialized && dappAdminCheck.None? && |points| > 0
    ensures r == s.(pointInfos := r.pointInfos)
    ensures forall i :: 0 <= i < |points| ==>
              (dappId, points[i].tokenName) in r.pointInfos && r.pointInfos[(dappId, points[i].tokenName)] == points[i]
    ensures forall i, j :: 0 <= i < j < |points| ==> points[i].tokenName != points[j].tokenName
    ensures forall key :: key in s.pointInfos && (key.0 != dappId || forall i :: 0 <= i < |points| ==> key.1 != points[i].tokenName)
              ==> key in r.pointInfos && r.pointInfos[key] == s.pointInfos[key]
    ensures forall key :: key in r.pointInfos ==>
              key in s.pointInfos || (key.0 == dappId && exists i :: 0 <= i < |points| && key.1 == points[i].tokenName)
    ensures forall i :: 0 <= i < |points| ==>
              && 0 < Utf16Length(points[i].tokenName) <= 80 && 0 <= points[i].decimals <= 18
              && CreateInputError(s, dappId, points[i].tokenName, points[i].decimals).None?
  {
    CreatePointsStoresAll(s, dappId, points, r);
    CreatePointsChecksEach(s, dappId, points, r);
    forall i, j | 0 <= i < j < |points| ensures points[i].tokenName != points[j].tokenName {
      if points[i].tokenName == points[j].tokenName {
        CreatePointsRejectsRepeats(s, dappId, points, i, j);
      }
    }
  }

  /** The converse of `CreatePointListEffect`: a non-empty list of valid, pairwise distinct
      entries commits when the guards pass. */
  lemma CreatePointListSucceeds(s: Ledger, dappAdminCheck: Option<string>, dappId: DappId, points: seq<PointInfo>)
    requires s.initialized && dappAdminCheck.None? && |points| > 0
    requires forall i :: 0 <= i < |points| ==> CreateInputError(s, dappId, points[i].tokenName, points[i].decimals).None?
    requires forall i, j :: 0 <= i < j < |points| ==> points[i].tokenName != points[j].tokenName
    ensures CreatePointList(s, dappAdminCheck, dappId, points).Success?
  {
    CreatePointsSucceeds(s, dappId, points);
  }

  // ---------------------------------------------------------------------------------------
  // The ledger invariant

  /** Configuration touches neither registrations, domains, counters nor checkpoints, so it keeps `Inv`. */
  lemma ConfigKeepsInv(s: Ledger, r: Ledger)
    requires Inv(s)
    requires r == s.(dappInfos := r.dappInfos, pointInfos := r.pointInfos, selfIncreasingPointsRules := r.selfIncreasingPointsRules)
    ensures Inv(r)
  {
  }
}
