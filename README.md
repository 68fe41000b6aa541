# Points contract: a Dafny model

This project models the points contract of an AElf dapp-growth platform. The contract keeps
points ledgers for the users, KOLs (advocates who own vanity domains) and inviters (sponsors)
of many dapps. The repository holds two revisions of it, and both are modelled.

- **The dapp revision** (`PointsContract_Record.cs`, `PointsContract_Dapp.cs`):
  - an admin adds dapps;
  - a dapp admin sets the dapp's action rules, its self-increasing rule and its points tokens;
  - a sender applies for an advocate domain on behalf of a KOL, and is paid the "Apply" rule;
  - a dapp contract joins a registrant through a domain, once per dapp. This pays the "Join"
    rule's fixed amounts to the user, the domain's KOL and its inviter. It also settles the
    self-increasing points each of them accrued since their last checkpoint: rate × elapsed
    seconds × the role's join counter.
- **The legacy service registry** (`PointsContract_Actions.cs`, `_Registration.cs`,
  `_Services.cs`, `_View.cs`, `_Helper.cs`, over the schema of `PointsContractState.cs`):
  - initialisation and admin settings;
  - operator-domain applications under a per-service quota;
  - batch points settlement into a points pool;
  - write-once batch registration of users in services;
  - per-service earning rules and their views.

Each revision is modelled twice.

1. **Pure transaction steps.** `DappRecord`, `DappConfig` and `Registry` are functions from a
   state record (`DappState.Ledger`, `RegistryState.Registry`) to `Result`: either the
   committed state or the message of the `Assert` that aborted. Lookups of absent objects that
   the C# dereferences become a failure carrying .NET's null-reference message.
2. **Classes that update their fields in place.** `DappContract.PointsContract` and
   `RegistryContract.PointsContract` do their writes in the source's order, with loops where
   the source loops. Each public method is proved to report the outcome of its pure step.
   - When the step commits, the method leaves exactly the committed state.
   - Each method states which of its failures come from a check before its first write; after
     such a failure the state is unchanged. (`Advocate` writes first and states the state after
     its failures exactly.)
   - A method that aborts after a write leaves the discarding of those writes to the host, as
     the AElf runtime discards the writes of a failed transaction.

   Each class keeps an invariant (`Valid()`). `DappRecordProofs` and the lemmas of
   `DappConfig` and `Registry` prove what the steps promise: which balances move and by how
   much, which checkpoints move, write-once registrations and domains, quotas, validation
   that accepts a list only when every element passes, round trips through the getters, and
   the invariants.

Host services are inputs:

- the genesis contract's author lookup: `isAuthor`;
- `AssertDappContractAddress`: `fromDappContract`;
- `AssertDappAdmin`: `dappAdminCheck`, the message or `None`;
- `AssertDomainFormat`: the class constant `validDomain`;
- the sender;
- `Context.CurrentBlockTime`: `now`, in integer seconds;
- the dapp-id hash: `dappId`.

## Model

| member | source | states |
|---|---|---|
| Common.Utf16Length | contract/Points.Contracts.Point/PointsContract_Dapp.cs:132 | the .NET `Length` of a string: between its character count and twice it, equal to the character count exactly when no character lies above U+FFFF, twice it when all do |
| Common.Increment | contract/Points.Contracts.Point/PointsContract_Record.cs:41 | a `MappedState` counter += 1 raises that key's count by one and leaves every other count alone |
| DappRecord.FindRule | contract/Points.Contracts.Point/PointsContract_Record.cs:86-87 | `FirstOrDefault` by action name: none exactly when no rule has that name; otherwise the first rule that has it |
| DappRecord.UpdatePointsPool | contract/Points.Contracts.Point/PointsContract_Record.cs:223-227 | adds the amount to exactly one balance, keyed (address, domain, source type, point name), and to no other |
| DappRecord.CalculateWaitingSettledSelfIncreasingPoints | contract/Points.Contracts.Point/PointsContract_Record.cs:209-220 | accrual is rate × elapsed seconds × the role's multiplier: 1 for the user, the invitation count for a KOL, the second-tier count for an inviter |
| DappRecord.UpdateSelfIncreasingPoint | contract/Points.Contracts.Point/PointsContract_Record.cs:193-207 | credits the role its pending accrual (nothing without a checkpoint), moves its checkpoint to now, changes no other balance or field |
| DappRecordProofs.WaitingPointsAdditive | contract/Points.Contracts.Point/PointsContract_Record.cs:209-217 | accrual from t0 to t1 plus from t1 to t2 equals accrual from t0 to t2 |
| DappRecordProofs.WaitingPointsNonNegative | contract/Points.Contracts.Point/PointsContract_Record.cs:209-217 | accrual is non-negative for a non-negative rate and multiplier and time that does not run backwards |
| DappRecordProofs.SettleTwiceIsSettleOnce | contract/Points.Contracts.Point/PointsContract_Record.cs:193-207 | settling a role at t1 and then at t2 leaves the same state as settling it once at t2 |
| DappRecordProofs.ZeroElapsedCreditsNothing | contract/Points.Contracts.Point/PointsContract_Record.cs:196-206 | settling again at the checkpoint's own time credits nothing |
| DappRecordProofs.UpdateKeepsOtherPending | contract/Points.Contracts.Point/PointsContract_Record.cs:163-188 | settling one role leaves another role's pending accrual unchanged, so the order within a settlement does not matter |
| DappRecordProofs.SettleKolAndInviterBalance | contract/Points.Contracts.Point/PointsContract_Record.cs:172-190 | the KOL and inviter part of a self-increasing settlement pays them their shares and nothing else |
| DappRecordProofs.SettlingSelfIncreasingPointsBalance | contract/Points.Contracts.Point/PointsContract_Record.cs:153-191 | a committed self-increasing settlement changes every balance by exactly `SelfIncreasingShare`: user from its checkpoint, KOL and inviter of a non-official domain scaled by their counters |
| DappRecordProofs.SettlingSelfIncreasingPointsCheckpoints | contract/Points.Contracts.Point/PointsContract_Record.cs:163-188 | it moves exactly the checkpoints of the settled roles to now (the user's only if it exists) and changes nothing but balances and checkpoints |
| DappRecordProofs.SettlingSelfIncreasingPointsSucceedsExactly | contract/Points.Contracts.Point/PointsContract_Record.cs:153-191 | the self-increasing settlement commits if and only if the dapp and its self-increasing rule exist and the user's domain is official or applied for |
| DappRecordProofs.SettlingPointsBalance | contract/Points.Contracts.Point/PointsContract_Record.cs:115-151 | every balance grows by exactly the action's fixed share (user, KOL, inviter) plus the self-increasing share |
| DappRecordProofs.SettlingPointsCheckpoints | contract/Points.Contracts.Point/PointsContract_Record.cs:146 | `SettlingPoints` moves only the settled roles' checkpoints and changes nothing but balances and checkpoints |
| DappRecordProofs.SettlingPointsSucceeds | contract/Points.Contracts.Point/PointsContract_Record.cs:115-191 | with the dapp, its action rule, its self-increasing rule and a known domain present, settlement commits |
| DappRecordProofs.JoinBalance | contract/Points.Contracts.Point/PointsContract_Record.cs:31 | a committed `Join` pays the "Join" rule's fixed share and the self-increasing share, both computed before its counters are raised |
| DappRecordProofs.JoinRecords | contract/Points.Contracts.Point/PointsContract_Record.cs:25-47 | binds registrant to domain; for a non-official domain raises the KOL's invitation count and the inviter's second-tier count by one; nothing else changes but balances and checkpoints |
| DappRecordProofs.JoinCheckpoints | contract/Points.Contracts.Point/PointsContract_Record.cs:51 | moves the settled roles' checkpoints and sets the registrant's User checkpoint to now |
| DappRecordProofs.JoinSucceedsExactly | contract/Points.Contracts.Point/PointsContract_Record.cs:12-31 | `Join` commits if and only if: initialised, called by the dapp contract, a registrant, a valid domain, not yet registered, dapp known, domain official or applied for, "Join" rule and self-increasing rule present |
| DappRecordProofs.JoinOnlyOnce | contract/Points.Contracts.Point/PointsContract_Record.cs:23-24 | after a committed join with a non-empty domain every later join of that registrant to that dapp fails, with "A dapp can only be registered once." once the earlier guards pass |
| DappRecordProofs.JoinFirstTimeEarnsNoAccrual | contract/Points.Contracts.Point/PointsContract_Record.cs:163-169 | a first-time registrant has no checkpoint, so its User balance grows by the join amount alone |
| DappRecordProofs.ApplySucceedsExactly | contract/Points.Contracts.Point/PointsContract_Record.cs:63-88 | `ApplyToBeAdvocate` commits if and only if: an invitee, a known dapp, quota left, valid domain, domain unused, not reserved, "Apply" rule present |
| DappRecordProofs.ApplyRecords | contract/Points.Contracts.Point/PointsContract_Record.cs:78-104 | records the domain with the invitee as KOL and the sender as inviter unless they coincide; raises the sender's count by one; nothing else but balances |
| DappRecordProofs.ApplyBalance | contract/Points.Contracts.Point/PointsContract_Record.cs:85-101 | pays the "Apply" KOL amount to the invitee and the inviter amount to a distinct sender, at the new domain, and nothing else |
| DappRecordProofs.ApplyQuotaExhausted | contract/Points.Contracts.Point/PointsContract_Record.cs:71 | once a sender has `MaxApplyCount` applications for a dapp, every further one fails |
| DappRecordProofs.ApplyDomainOnce | contract/Points.Contracts.Point/PointsContract_Record.cs:75 | an applied-for domain cannot be applied for again |
| DappRecordProofs.JoinKeepsInv | contract/Points.Contracts.Point/PointsContract_Record.cs:12-61 | `Join` keeps the ledger invariant: User checkpoints only for registrations, non-negative counters, relationships stored under their own domain and never self-sponsored |
| DappRecordProofs.ApplyKeepsInv | contract/Points.Contracts.Point/PointsContract_Record.cs:63-113 | `ApplyToBeAdvocate` keeps the ledger invariant |
| DappRecordProofs.JoinNeverLowersBalances | contract/Points.Contracts.Point/PointsContract_Record.cs:12-61 | with non-negative configured amounts and no future checkpoint, a join lowers no balance and leaves no checkpoint in the future |
| DappRecordProofs.ApplyNeverLowersBalances | contract/Points.Contracts.Point/PointsContract_Record.cs:63-113 | with non-negative configured amounts, an application lowers no balance |
| DappRuleValidationGap.NegativeKolAmountLowersBalance | contract/Points.Contracts.Point/PointsContract_Dapp.cs:42-58 | `SetDappPointsRules` commits a rule with a registered point, positive percents and a negative KOL amount (the amount itself is not checked), and an application under that rule then lowers the KOL's balance |
| DappState.EmptyLedgerInv | contract/Points.Contracts.Point/PointsContractState.cs:6-22 | the empty ledger satisfies the invariant (no state file of the dapp revision is among the sources; the cited file is the legacy registry's state, whose `MappedState` fields likewise start empty) |
| DappConfig.AddDappEffect | contract/Points.Contracts.Point/PointsContract_Dapp.cs:10-34 | commits if and only if initialised, admin and valid domain; stores exactly the given dapp with no rules, touches nothing else |
| DappConfig.PointsRulesError | contract/Points.Contracts.Point/PointsContract_Dapp.cs:42-49 | no error if and only if every rule passes; otherwise the error of the first failing rule |
| DappConfig.SetDappPointsRulesSucceedsExactly | contract/Points.Contracts.Point/PointsContract_Dapp.cs:36-61 | commits if and only if initialised, dapp admin, rules given, dapp known and every rule valid |
| DappConfig.SetDappPointsRulesRejectsInvalid | contract/Points.Contracts.Point/PointsContract_Dapp.cs:42-49 | the first invalid rule rejects the list with its own message |
| DappConfig.FirstRuleError | contract/Points.Contracts.Point/PointsContract_Dapp.cs:42-49 | the list's error is that of its first invalid rule |
| DappConfig.SetDappPointsRulesRecords | contract/Points.Contracts.Point/PointsContract_Dapp.cs:51-58 | replaces the rule list, keeps admin, official domain and contract address, so every action lookup then reads the new list |
| DappConfig.SetSelfIncreasingPointsRulesEffect | contract/Points.Contracts.Point/PointsContract_Dapp.cs:64-89 | commits if and only if a rule with a registered point name and positive user amount and percents is given; stores it, other dapps unchanged |
| DappConfig.SelfIncreasingRuleOverwritten | contract/Points.Contracts.Point/PointsContract_Dapp.cs:68-77 | there is no once-only guard: a second valid rule replaces the first |
| DappConfig.SetPoint | contract/Points.Contracts.Point/PointsContract_Dapp.cs:115-121 | stores exactly `PointInfo(name, decimals)` under (dapp, name), so the token is registered; every other token and every other field is unchanged |
| DappConfig.CreatePointEffect | contract/Points.Contracts.Point/PointsContract_Dapp.cs:91-99 | commits if and only if the name has 1 to 80 UTF-16 code units (the .NET `Length`), decimals are 0 to 18 and the name is not taken (a default entry counts as free); stores exactly that token |
| DappConfig.CreatePointCountsUtf16Units | contract/Points.Contracts.Point/PointsContract_Dapp.cs:132-133 | a name of more than 40 characters above U+FFFF is rejected with "Invalid input.", since each counts as two code units |
| DappConfig.CreatePointTwiceFails | contract/Points.Contracts.Point/PointsContract_Dapp.cs:136-137 | a created token name cannot be created again |
| DappConfig.CreatePointListRejectsEmpty | contract/Points.Contracts.Point/PointsContract_Dapp.cs:105 | an empty list is rejected with "Invalid input." |
| DappConfig.CreatePointsFailsOnExisting | contract/Points.Contracts.Point/PointsContract_Dapp.cs:106-110 | a list naming an existing token fails wherever it names it |
| DappConfig.CreatePointsRejectsRepeats | contract/Points.Contracts.Point/PointsContract_Dapp.cs:106-110 | because each entry is stored before the next is checked, a list naming a token twice fails |
| DappConfig.CreatePointsStoresAll | contract/Points.Contracts.Point/PointsContract_Dapp.cs:106-110 | a committed list stores every entry under its name, keeps every token it does not name, adds no name outside the list and changes nothing else |
| DappConfig.CreatePointsChecksEach | contract/Points.Contracts.Point/PointsContract_Dapp.cs:106-110 | every entry of a committed list passes the input check against the state before the list |
| DappConfig.CreatePointsSucceeds | contract/Points.Contracts.Point/PointsContract_Dapp.cs:106-110 | a list of entries that each pass the input check, with pairwise distinct names, is stored in full |
| DappConfig.CreatePointListEffect | contract/Points.Contracts.Point/PointsContract_Dapp.cs:101-113 | a committed list passed the guards, was non-empty with pairwise distinct names, each entry had a name of 1 to 80 UTF-16 code units, 0 to 18 decimals and a free name; it is stored entry by entry, every other token is kept, no name outside the list is added and nothing else changes |
| DappConfig.CreatePointListSucceeds | contract/Points.Contracts.Point/PointsContract_Dapp.cs:101-113 | the converse: with the guards passing, a non-empty list of valid entries with pairwise distinct names commits |
| DappConfig.ConfigKeepsInv | contract/Points.Contracts.Point/PointsContract_Dapp.cs:10-121 | configuration writes keep the ledger invariant |
| DappContract.PointsContract.constructor | contract/Points.Contracts.Point/PointsContractState.cs:6-22 | an initialised contract with empty maps satisfies the invariant (no state file of the dapp revision is among the sources; the cited file is the legacy registry's state) |
| DappContract.PointsContract.UpdatePointsPool | contract/Points.Contracts.Point/PointsContract_Record.cs:223-227 | the in-place balance update equals the pure one and touches only the balances |
| DappContract.PointsContract.UpdateSelfIncreasingPoint | contract/Points.Contracts.Point/PointsContract_Record.cs:193-207 | leaves exactly the state of `DappRecord.UpdateSelfIncreasingPoint` |
| DappContract.PointsContract.SettlingSelfIncreasingPoints | contract/Points.Contracts.Point/PointsContract_Record.cs:153-191 | reports the pure step's outcome and, on success, leaves its state; a failure in a check before its first write leaves the state unchanged |
| DappContract.PointsContract.SettlingPoints | contract/Points.Contracts.Point/PointsContract_Record.cs:115-151 | reports the pure step's outcome and, on success, leaves its state; a failure in a check before its first write leaves the state unchanged |
| DappContract.PointsContract.Join | contract/Points.Contracts.Point/PointsContract_Record.cs:12-61 | reports `DappRecord.Join`'s outcome; on success leaves its state and keeps the invariant; a failure in a check before its first write leaves the state unchanged |
| DappContract.PointsContract.SettleJoin | contract/Points.Contracts.Point/PointsContract_Record.cs:31-51 | the tail of `Join`: settlement, counters, clock, as the pure bookkeeping says; a failure in a check before its first write leaves the state unchanged |
| DappContract.PointsContract.ApplyToBeAdvocate | contract/Points.Contracts.Point/PointsContract_Record.cs:63-113 | reports `DappRecord.ApplyToBeAdvocate`'s outcome; on success leaves its state and keeps the invariant; a failure in a check before its first write leaves the state unchanged |
| DappContract.PointsContract.Advocate | contract/Points.Contracts.Point/PointsContract_Record.cs:78-104 | the tail of `ApplyToBeAdvocate`: domain, rule lookup, credits, count; on failure only the domain relationship has been written |
| DappContract.PointsContract.CreditApply | contract/Points.Contracts.Point/PointsContract_Record.cs:90-104 | credits the KOL and a distinct sender and raises the sender's count |
| DappContract.PointsContract.SetDomain | contract/Points.Contracts.Point/PointsContract_Record.cs:78-83 | stores one domain relationship and nothing else |
| DappContract.PointsContract.CountApply | contract/Points.Contracts.Point/PointsContract_Record.cs:103-104 | raises the sender's application count and nothing else |
| DappContract.PointsContract.Register | contract/Points.Contracts.Point/PointsContract_Record.cs:25 | writes the registration and nothing else |
| DappContract.PointsContract.CountInvitation | contract/Points.Contracts.Point/PointsContract_Record.cs:40-46 | raises the KOL's and, if any, the inviter's join counter |
| DappContract.PointsContract.SetCheckpoint | contract/Points.Contracts.Point/PointsContract_Record.cs:51 | sets one checkpoint and nothing else |
| DappContract.PointsContract.AddDapp | contract/Points.Contracts.Point/PointsContract_Dapp.cs:10-34 | commits exactly what `DappConfig.AddDapp` commits, keeps the invariant |
| DappContract.PointsContract.CheckPointsRules | contract/Points.Contracts.Point/PointsContract_Dapp.cs:42-49 | the validation loop returns the first rule's error, proved by its loop invariant |
| DappContract.PointsContract.SetDappPointsRules | contract/Points.Contracts.Point/PointsContract_Dapp.cs:36-61 | commits exactly what the pure step commits, keeps the invariant |
| DappContract.PointsContract.SetSelfIncreasingPointsRules | contract/Points.Contracts.Point/PointsContract_Dapp.cs:64-89 | commits exactly what the pure step commits, keeps the invariant |
| DappContract.PointsContract.AssertValidCreateInput | contract/Points.Contracts.Point/PointsContract_Dapp.cs:130-138 | returns the pure validation's error |
| DappContract.PointsContract.SetPoint | contract/Points.Contracts.Point/PointsContract_Dapp.cs:115-121 | stores one token and nothing else |
| DappContract.PointsContract.CreatePoint | contract/Points.Contracts.Point/PointsContract_Dapp.cs:91-99 | commits exactly what the pure step commits, keeps the invariant |
| DappContract.PointsContract.CreatePointList | contract/Points.Contracts.Point/PointsContract_Dapp.cs:101-113 | reports the pure step's outcome; on success leaves its state and keeps the invariant; a failure in a check before its first write leaves the state unchanged |
| DappContract.PointsContract.CreatePoints | contract/Points.Contracts.Point/PointsContract_Dapp.cs:106-110 | the validate-then-store loop, proved against `DappConfig.CreatePoints` by its loop invariant; a failure in a check before its first write leaves the state unchanged |
| Registry.InitializeEffect | contract/Points.Contracts.Point/PointsContract_Actions.cs:10-26 | commits if and only if not initialised, both limits positive, sender is the author and admin not empty; sets flag, limits and admin (default sender), nothing else |
| Registry.InitializeOnce | contract/Points.Contracts.Point/PointsContract_Actions.cs:12 | a second `Initialize` fails with "Already initialized." |
| Registry.ApplyToOperatorEffect | contract/Points.Contracts.Point/PointsContract_Actions.cs:70-97 | commits if and only if invitee given, service has rules, domain unused and quota left; records the domain with the sender as inviter and raises only that count |
| Registry.ApplyToOperatorDomainOnce | contract/Points.Contracts.Point/PointsContract_Actions.cs:78-79 | a recorded domain cannot be applied for again |
| Registry.ApplyToOperatorQuota | contract/Points.Contracts.Point/PointsContract_Actions.cs:80-81 | with the quota used up, the application fails with "Apply count exceed the limit." |
| Registry.Settle | contract/Points.Contracts.Point/PointsContract_Actions.cs:105-110 | commits if and only if every name is known; each pool entry grows by the sum of its records' amounts |
| Registry.PointsSettlementEffect | contract/Points.Contracts.Point/PointsContract_Actions.cs:99-120 | commits if and only if admin, batch within the limit and every name known; pool entries grow by their summed amounts, nothing else changes |
| Registry.PointsSettlementRejectsUnknownName | contract/Points.Contracts.Point/PointsContract_Actions.cs:107-108 | one unknown points name anywhere aborts the batch |
| Registry.AmountForAppend | contract/Points.Contracts.Point/PointsContract_Actions.cs:105-110 | credits of two batches add up to the credits of the joined batch |
| Registry.AmountForNonNegative | contract/Points.Contracts.Point/PointsContract_Actions.cs:109 | non-negative amounts credit a non-negative total |
| Registry.CreatePointEffect | contract/Points.Contracts.Point/PointsContract_Actions.cs:122-152 | commits if and only if admin, name of 1 to 80 UTF-16 code units (the .NET `Length`), decimals 0 to 18, name free; stores exactly that token |
| Registry.CreatePointTwiceFails | contract/Points.Contracts.Point/PointsContract_Actions.cs:150-151 | a created name cannot be created again |
| Registry.AdminOperationsGuarded | contract/Points.Contracts.Point/PointsContract_Helper.cs:5-6 | every admin operation fails with "Not initialized." before initialisation and "No permission." for a non-admin |
| Registry.DistinctFrom | contract/Points.Contracts.Point/PointsContract_Registration.cs:24 | `DistinctBy(Registrant)`: the result's records come from the input, registrants are pairwise distinct, and the first record of every registrant is kept |
| Registry.DistinctFromIgnoresRepeat | contract/Points.Contracts.Point/PointsContract_Registration.cs:24 | appending a record for a registrant already seen leaves the result unchanged |
| Registry.DistinctIgnoresRepeat | contract/Points.Contracts.Point/PointsContract_Registration.cs:24 | the same, for `DistinctBy` from scratch |
| Registry.RegisterDetailsEffect | contract/Points.Contracts.Point/PointsContract_Registration.cs:25-48 | a committed inner loop checked every record, stored each with its domain and time, kept old entries, added only its registrants |
| Registry.RegisterGroupsEffect | contract/Points.Contracts.Point/PointsContract_Registration.cs:19-49 | a committed outer loop: every service named, every first record checked against the state before the batch and stored, old entries kept, and no registration added beyond the processed records |
| Registry.RegisterGroupsAddsOnlyProcessed | contract/Points.Contracts.Point/PointsContract_Registration.cs:19-49 | every registration a committed outer loop adds is that of a processed record under its group's service |
| Registry.FirstGroupNotRepeated | contract/Points.Contracts.Point/PointsContract_Registration.cs:19-46 | in a committed batch, a registrant processed in the first group is not processed again in a later group of the same service |
| Registry.RegisterGroupsDistinct | contract/Points.Contracts.Point/PointsContract_Registration.cs:19-46 | in a committed batch no registrant is processed twice for one service, across groups |
| Registry.RegisterDetailsSucceeds | contract/Points.Contracts.Point/PointsContract_Registration.cs:25-46 | the inner loop commits on records with distinct registrants that each pass their checks |
| Registry.LaterRecordStillFree | contract/Points.Contracts.Point/PointsContract_Registration.cs:37-46 | a record valid before a group is stored stays valid after it, unless that group registered the same registrant in the same service |
| Registry.RegisterGroupsSucceeds | contract/Points.Contracts.Point/PointsContract_Registration.cs:19-49 | the outer loop commits when services are named, every processed record passes its checks and no registrant repeats within a service |
| Registry.RecordRegistrationEffect | contract/Points.Contracts.Point/PointsContract_Registration.cs:10-54 | commits only for an admin and 1 to `MaxRegistrationListCount` groups; then every processed record is valid and new and is stored exactly, no registrant was processed twice for one service, old entries are kept and no other registration is added |
| Registry.RecordRegistrationSucceeds | contract/Points.Contracts.Point/PointsContract_Registration.cs:10-54 | the converse: admin, 1 to `MaxRegistrationListCount` groups, named services, valid and new first records and no registrant repeated within a service make the batch commit |
| Registry.RecordRegistrationRejectsCrossGroupRepeat | contract/Points.Contracts.Point/PointsContract_Registration.cs:40-46 | a registrant in two groups of the same service fails the batch, because the second record meets the first one's registration |
| Registry.RecordRegistrationWriteOnce | contract/Points.Contracts.Point/PointsContract_Registration.cs:40-41 | a batch naming a registrant already registered in its group's service fails |
| Registry.RecordRegistrationRejectsInvalid | contract/Points.Contracts.Point/PointsContract_Registration.cs:27-37 | an invalid first record of a registrant fails the batch |
| Registry.RecordRegistrationIgnoresRepeat | contract/Points.Contracts.Point/PointsContract_Registration.cs:24 | a repeated registrant in a group is dropped unchecked, even if that record is invalid |
| Registry.FirstRecordOf | contract/Points.Contracts.Point/PointsContract_Registration.cs:24 | finds the first record of a registrant, the one `DistinctBy` keeps |
| Registry.EarningRulesError | contract/Points.Contracts.Point/PointsContract_Services.cs:13-20 | no error if and only if every rule passes; otherwise the error of the first failing rule |
| Registry.SetServicesEarningRulesEffect | contract/Points.Contracts.Point/PointsContract_Services.cs:8-38 | commits if and only if admin, list given and every rule valid; replaces the service's list so the getter returns it, other services unchanged |
| Registry.SetServicesEarningRulesRejectsInvalid | contract/Points.Contracts.Point/PointsContract_Services.cs:13-20 | the first invalid rule rejects the list with its own message |
| Registry.FirstEarningRuleError | contract/Points.Contracts.Point/PointsContract_Services.cs:13-20 | the list's error is that of its first invalid rule |
| Registry.SetAdminRoundTrip | contract/Points.Contracts.Point/PointsContract_View.cs:8 | `SetAdmin` accepts exactly a non-empty address and `GetAdmin` returns it |
| Registry.SetReservedDomainListRoundTrip | contract/Points.Contracts.Point/PointsContract_View.cs:10-11 | `SetReservedDomainList` accepts exactly a non-empty list and the getter returns it |
| Registry.SetMaxRecordListCountRoundTrip | contract/Points.Contracts.Point/PointsContract_View.cs:13-16 | accepts exactly a positive count and the getter returns it |
| Registry.SetMaxApplyCountRoundTrip | contract/Points.Contracts.Point/PointsContract_View.cs:18-21 | accepts exactly a positive count and the getter returns it |
| Registry.ApplyThenGetDomainApplyInfo | contract/Points.Contracts.Point/PointsContract_View.cs:23-26 | after an application, `GetDomainApplyInfo` returns it |
| Registry.DeployedInv | contract/Points.Contracts.Point/PointsContractState.cs:6-22 | a freshly deployed registry satisfies the registry invariant |
| Registry.RegisterDetailsKeepsInv | contract/Points.Contracts.Point/PointsContract_Registration.cs:25-48 | the inner loop keeps the invariant: registrations name a service and an applied-for domain |
| Registry.RegisterGroupsKeepsInv | contract/Points.Contracts.Point/PointsContract_Registration.cs:19-49 | the outer loop keeps the invariant |
| Registry.InitializeKeepsInv | contract/Points.Contracts.Point/PointsContract_Actions.cs:10-26 | `Initialize` keeps the invariant: an initialised registry has an admin and positive limits |
| Registry.ApplyToOperatorKeepsInv | contract/Points.Contracts.Point/PointsContract_Actions.cs:70-97 | applications keep the invariant |
| Registry.PointsSettlementKeepsInv | contract/Points.Contracts.Point/PointsContract_Actions.cs:99-120 | settlements keep the invariant |
| Registry.RecordRegistrationKeepsInv | contract/Points.Contracts.Point/PointsContract_Registration.cs:10-54 | registrations keep the invariant |
| RegistryContract.PointsContract.constructor | contract/Points.Contracts.Point/PointsContractState.cs:6-22 | a deployed contract: nothing set, invariant holds |
| RegistryContract.PointsContract.AssertAdminOperation | contract/Points.Contracts.Point/PointsContract_Helper.cs:5-6 | the two guards in order: "Not initialized.", then "No permission." |
| RegistryContract.PointsContract.Initialize | contract/Points.Contracts.Point/PointsContract_Actions.cs:10-26 | commits exactly what `Registry.Initialize` commits, keeps the invariant |
| RegistryContract.PointsContract.SetAdmin | contract/Points.Contracts.Point/PointsContract_Actions.cs:28-37 | commits exactly what `Registry.SetAdmin` commits, keeps the invariant |
| RegistryContract.PointsContract.SetReservedDomainList | contract/Points.Contracts.Point/PointsContract_Actions.cs:39-48 | commits exactly what the pure step commits, keeps the invariant |
| RegistryContract.PointsContract.SetMaxRecordListCount | contract/Points.Contracts.Point/PointsContract_Actions.cs:50-58 | commits exactly what the pure step commits, keeps the invariant |
| RegistryContract.PointsContract.SetMaxApplyCount | contract/Points.Contracts.Point/PointsContract_Actions.cs:60-68 | commits exactly what the pure step commits, keeps the invariant |
| RegistryContract.PointsContract.ApplyToOperator | contract/Points.Contracts.Point/PointsContract_Actions.cs:70-97 | commits exactly what the pure step commits, keeps the invariant |
| RegistryContract.PointsContract.PointsSettlement | contract/Points.Contracts.Point/PointsContract_Actions.cs:99-120 | reports the pure step's outcome; on success leaves its state and keeps the invariant; a failure in a check before its first write leaves the state unchanged |
| RegistryContract.PointsContract.Settle | contract/Points.Contracts.Point/PointsContract_Actions.cs:105-110 | the settlement loop, proved against `Registry.Settle` by its loop invariant; a failure in a check before its first write leaves the state unchanged |
| RegistryContract.PointsContract.AssertValidCreateInput | contract/Points.Contracts.Point/PointsContract_Actions.cs:144-152 | returns the pure validation's error |
| RegistryContract.PointsContract.CreatePoint | contract/Points.Contracts.Point/PointsContract_Actions.cs:122-142 | commits exactly what the pure step commits, keeps the invariant |
| RegistryContract.PointsContract.RecordRegistration | contract/Points.Contracts.Point/PointsContract_Registration.cs:10-54 | reports the pure step's outcome; on success leaves its state and keeps the invariant; a failure in a check before its first write leaves the state unchanged |
| RegistryContract.PointsContract.RegisterGroups | contract/Points.Contracts.Point/PointsContract_Registration.cs:19-49 | the outer loop, proved against `Registry.RegisterGroups` by its loop invariant; a failure in a check before its first write leaves the state unchanged |
| RegistryContract.PointsContract.RegisterDetails | contract/Points.Contracts.Point/PointsContract_Registration.cs:25-48 | the inner loop, proved against `Registry.RegisterDetails` by its loop invariant; a failure in a check before its first write leaves the state unchanged |
| RegistryContract.PointsContract.CheckEarningRules | contract/Points.Contracts.Point/PointsContract_Services.cs:13-20 | the validation loop returns the first rule's error |
| RegistryContract.PointsContract.SetServicesEarningRules | contract/Points.Contracts.Point/PointsContract_Services.cs:8-31 | commits exactly what the pure step commits, keeps the invariant |

## Left out

- DappContract.PointsContract.Join: on a failure after the registration write it does not restore the state; the host discards a failed transaction's writes, and the contract states the outcome and the committed state only.
- DappContract.PointsContract.SettleJoin: the same; on failure the writes already made are left to the host.
- DappContract.PointsContract.ApplyToBeAdvocate: the same, for a failure after the domain write (a missing "Apply" rule).
- DappContract.PointsContract.Advocate: the same.
- DappContract.PointsContract.SettlingPoints: the same, for a failure after the first credit.
- DappContract.PointsContract.SettlingSelfIncreasingPoints: the same.
- DappContract.PointsContract.CreatePointList: the same, for a failure after earlier entries were stored.
- DappContract.PointsContract.CreatePoints: the same.
- RegistryContract.PointsContract.PointsSettlement: the same, for an unknown name after earlier credits.
- RegistryContract.PointsContract.Settle: the same.
- RegistryContract.PointsContract.RecordRegistration: the same, for a failing record after earlier registrations.
- RegistryContract.PointsContract.RegisterGroups: the same.
- RegistryContract.PointsContract.RegisterDetails: the same.
- Events and the `PointsChanged` detail lists are not modelled. `GeneratePointsDetail` is a function with no property beyond its construction. Events are an observability side channel.
- `SafeMath` overflow checks (`Add`, `Mul`, `Sub` abort on 64-bit overflow) are not modelled. Integers are unbounded, so an operation that would abort on overflow commits in the model.
- `Settle`, `BatchSettle`, `AcceptReferral`, `GetPointsBalance` and `GetReferralRelationInfo` are not part of this model. Their implementations are not among the modelled files, so the proportional split, the referral graph and the referral stream are not covered.
- The dapp revision's `Initialize` and `SetMaxApplyCount` are not part of this model. The dapp class's constructor stands for an initialised contract with the admin, quota and reserved list given.
- `AssertDomainFormat`, `AssertDappAdmin`, `AssertDappContractAddress`, the genesis author lookup, the dapp-id hash and the block clock are host services. They are inputs (see above), not models.
- `ApplyLimitMap` is declared in `PointsContractState.cs` and never read or written, so it is not modelled.
- `MaxRegistrationListCount` is read by `RecordRegistration` but is not declared in `PointsContractState.cs` and set by nothing shown. It is a constant of the registry class. `PointsInfos`, which `PointsSettlement` checks names against, is written by nothing shown either. It is a deployment parameter.
- Protobuf null checks that cannot fail on decoded messages are not modelled. These are `input != null`, `input.Domain != null` and `input.Service != null` in `ApplyToOperator`, and `input != null` in `PointsSettlement`. A missing message field that can be absent is an `Option`.
- `CreateTime` is a `Timestamp`; the model keeps whole seconds as an `int`.

## Behaviour of the code worth knowing

- Points balances are keyed by (address, domain, source type, point name), without the dapp (`PointsContract_Record.cs:225`).
- Join counters are keyed by (dapp, address), not by domain (`PointsContract_Record.cs:41-45`). Checkpoints are keyed by (dapp, address, source type), also without the domain (`PointsContract_Record.cs:206`).
- Settlement pays the rule's absolute `KolPoints` and `InviterPoints` (`PointsContract_Record.cs:90`, `:133`), while the validators check `KolPointsPercent` and `InviterPointsPercent` (`PointsContract_Dapp.cs:47`). Balances are therefore monotone only when the configured amounts are non-negative (`DappRuleValidationGap.NegativeKolAmountLowersBalance`).
- In `ApplyToBeAdvocate` the inviter is the sender, or none when the sender is the invitee; the input has no inviter field (`PointsContract_Record.cs:65`, `:82`).
- `Join`'s write-once test is "the stored domain is empty", so a registration to an empty domain does not block a second join (`PointsContract_Record.cs:23`).
- The legacy `PointsSettlement` checks only the admin, not initialisation (`PointsContract_Actions.cs:101`).
- `RecordRegistration` requires every registered domain to have been applied for (`Domain not exist.`, `PointsContract_Registration.cs:37`), so a batch naming an unknown domain fails.
- `RecordRegistration` checks each record against the registrations already stored in the same call (`PointsContract_Registration.cs:40`), so a registrant named in two groups of one service fails the batch.
- Token names are bounded by their .NET `Length`, which counts UTF-16 code units (`PointsContract_Dapp.cs:132`, `PointsContract_Actions.cs:146`); a character above U+FFFF counts twice (`Common.Utf16Length`).
