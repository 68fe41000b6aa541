/** Why balance monotonicity (`DappRecordProofs.ApplyNeverLowersBalances`) needs the hypothesis
    that the configured amounts are non-negative: the rule validation of `DappConfig` does not
    ensure it. */
module DappRuleValidationGap {
  import opened Common
  import opened DappState
  import opened DappRecord
  import opened DappRecordProofs
  import DappConfig

  /** `SetDappPointsRules` validates the percents but not the KOL amount, so it stores a rule
      with a negative KOL amount, and an application under that rule then lowers the KOL's
      balance. */
  lemma NegativeKolAmountLowersBalance()
    ensures exists s0: Ledger, s: Ledger, r: Ledger, k: BalanceKey ::
              && DappConfig.SetDappPointsRules(s0, None, [7], Some([PointsRule(ApplyAction, "P", 0, -1, 0, 1, 1)])) == Success(s)
              && ApplyToBeAdvocate(s, _ => true, Address([1]), Some([7]), "kol.example", Some(Address([2]))) == Success(r)
              && BalanceOf(r, k) < BalanceOf(s, k)
  {
    var rule := PointsRule(ApplyAction, "P", 0, -1, 0, 1, 1);
    var s0 := EmptyLedger(true, None, 1, None).(
      dappInfos := map[[7] := DappInfo(None, "official.example", None, None)],
      pointInfos := map[([7], "P") := PointInfo("P", 0)]);
    assert DappConfig.PointsRuleError(s0, [7], rule).None?;
    var s := DappConfig.SetDappPointsRules(s0, None, [7], Some([rule])).value;
    var k := BalanceKey(Address([2]), "kol.example", Kol, "P");
    assert FindRule([rule], ApplyAction) == Some(rule);
    var r := ApplyToBeAdvocate(s, _ => true, Address([1]), Some([7]), "kol.example", Some(Address([2]))).value;
    ApplyBalance(s, _ => true, Address([1]), [7], "kol.example", Address([2]), r, k);
  }
}
