# Verification of the freight backend's protocols, entitlements and amounts

A Dafny model of five parts of the NestJS freight backend, with proofs about every run of them, every interleaving of
their callers and every text they read. `dafny verify dfyconfig.toml` checks all of it.

- **Sign-in over Redis** (`Sessions.dfy`, `OneTimeCodes.dfy`). Clients take one Redis command at a time and keys expire
  between commands. `Sessions` has sessions and refresh tokens; `OneTimeCodes` has a phone's lock, code, send counter and
  cooldown. The classes `SessionServer` and `PhoneCodes` perform whole requests, each proved to be a run of the machine.
- **Bought menu time** (`MenuTime.dfy`, `MenuAccess.dfy`, `PlanExpiry.dfy`, `PlanReminders.dfy`). Grants are rows with a
  half-open period in milliseconds. The access check, the purchase page and the expiry notice are separate computations
  over the same rows, and are proved to agree.
- **Invites** (`Invites.dfy`, `InviteSweep.dfy`, `InviteService.dfy`). A timed machine over invite rows, accounts and ties. The background
  sweep's SELECT and its row transactions are separate events, and so are the read and the write of an opened link.
- **Amounts as text** (`DigitGroups.dfy`, `Amounts.dfy`, `CargoPrice.dfy`, `TripFare.dfy`, `MoneyWords.dfy`,
  `FareTexts.dfy`, `NumberWords.dfy`, `PriceTexts.dfy`). Regular expressions are scanners over strings. Grouping digits is
  proved not to change what is read, and texts made for people, or written by them, are proved to read back.
- **Metered resources** (`Verification.dfy`, `BrokerCredit.dfy`). Paid inquiries behind a cache of answers and a daily
  quota, and a balance of requests with a conditional decrement.

In each machine `Enabled` says when an event can happen, `Apply` or `Step` what it does, `Run` plays a list of events
and `CanRun` says the list can be played. Methods change the state, are proved equal to those functions, and say what they
change in the fields themselves; the lemmas are about the functions.

## Where the code and its promises part

These are stated as lemmas, each with the condition that decides it.

- The read of an opened link and its write are two statements. Written while another company's invite waits, it leaves a
  used invite beside a waiting one (`LateLinkLeavesTwo`); it does exactly then (`LateLinkUnsettlesExactly`,
  `AtMostOneWaits`).
- A renewal moves an invite's `createdAt`, by which the account it made is recognised. An unused account with no invite
  waiting may be invited exactly while one of its invites was made within a minute of it (`RefusedExactly`); when a renewal
  has moved the only such invite, nobody can invite the account and the sweep never deletes it (`RenewalStrandsTheAccount`,
  `StrandedForever`).
- The sweep's transaction does not look at `createdAt` again, so a row renewed after the SELECT is revoked while its link
  works, and only such a row (`SweepRevokesWorkingOnlyIfRenewed`).
- The sweep's SELECT has no order, and an account goes only with the last of its rows in force. With two stale rows, of
  which one made the account, it stays or goes by the order they come in (`OrderDecides`); `SweepTakesExactly` and
  `LastSweptDecides` say when.
- A send counter that expires between the increment and the renewal of its window lets a fourth code out. It can from
  every state with a counter below its limit (`LapseSendsFourCodes`), by a request whose check falls in the counter's last
  two minutes and by no other (`LapseNeedsLateCheck`, `AmpleIsSteady`); a slightly weaker limit always holds (`SendsLimited`).
- A reminder that reaches its mark on the third day after an end date or later may be the second one
  (`LateAttemptTellsTwice`), and an earlier one never is (`ToldAtMostOnce`).
- A price with «،» right before a run that gets a short first group is read differently after grouping, because the
  grouping rule does not know «،» for a separator while the price reader does (`CommaPriceIsLost`, `CommaPriceChanges`;
  `StripGrouped` has the exact condition for the text that is read). Weights are never affected.
- «م» for million is found only right before a Latin letter, a digit or an underscore, since the pattern's word boundary
  knows ASCII only (`AbbreviationScalesExactly`): behind a figure, as it is written, it is not read (`AbbreviationIsLost`).
- An amount in words is read as its first part, so it reads back exactly when it has one part
  (`WordedReadsBackExactlyWithOnePart`).
- Words for a whole number keep its last twelve digits only, so 10^12 is the empty text (`WordsAreDecodable`,
  `SilentNumbers`).
- A grant inserted from a read that another insertion followed overlaps it exactly when that was for the same menu
  (`StaleReadOverlaps`).
- A paid inquiry whose call fails is not counted against the day's quota, since the count is stored with the answer: what
  is limited is answered inquiries (`QuotaHolds`). The calls made on a day are at most twelve and the failed ones besides
  (`CallsAreAnsweredOrFailed`), and of failed ones there may be any number (`FailedCallsAreNotCounted`).

## Model

| member | source | states |
|---|---|---|
| Sessions.StepKeepsInv | src/services/auth/session.service.ts:33-73 | every single Redis command of any client, key expiry and time keep the invariant tying sessions, tokens and requests in flight together |
| Sessions.RunKeepsInv | src/services/auth/session.service.ts:33-73 | the invariant holds in every interleaved run |
| Sessions.OneSessionNeverBack | src/services/auth/session.service.ts:33-73 | a session that was accepted at one moment and was not at a later one (replaced, ended or expired) is never accepted again, in any run; at any moment at most one of a single-session account is |
| Sessions.NotCurrentStays | src/services/auth/session.service.ts:44-63 | a session that is not current stays so in every run, although resume reads and renews in two commands |
| Sessions.IdleSessionEnds | src/services/auth/session.service.ts:33-55 | after 30 days without a sign-in or refresh of the account none of its sessions is accepted, whatever the others do |
| Sessions.SessionLivesThirtyDays | src/services/auth/session.service.ts:33-55 | a session started or resumed is accepted for the 30 days after, in every run without another start for its account or an end of it, and without another refresh exactly for those 30 days |
| Sessions.SessionServer.Start | src/services/auth/session.service.ts:33-37 | starting replaces the account's session with a new one, for 30 days from now, as the machine's event does; an account with many sessions keeps none |
| Sessions.SessionServer.Resume | src/services/auth/session.service.ts:44-55 | resume succeeds exactly for the current session (or a token without one); on a single-session account the session then has 30 days from now, otherwise nothing changes; it is a run of get and renew commands |
| Sessions.SessionServer.CheckCurrent | src/services/auth/session.service.ts:58-63 | isCurrent accepts exactly the unexpired session stored for the account, tokens without one while none is stored, and accounts with many |
| Sessions.SessionServer.End | src/services/auth/session.service.ts:71-73 | signing out ends the session only while it is the current one |
| Sessions.SessionServer.SetRefreshToken | src/services/auth/registration.service.ts:301-314 | issuing stores the new token with its session for its lifetime |
| Sessions.OneHolderPerSession | src/services/auth/registration.service.ts:301-344 | for each session, live refresh tokens and refreshes in flight are at most one together, in every concurrent run |
| Sessions.ExchangedAtMostOnce | src/services/auth/registration.service.ts:317-344 | every refresh token is exchanged or revoked at most once in every run |
| Sessions.DeadStays | src/services/auth/registration.service.ts:323-344 | a session that is not accepted and has no holder never is or has again |
| Sessions.SignOutIsFinal | src/services/auth/registration.service.ts:323-328 | after revoke ends a session, in every run that follows it is never accepted and no refresh token of it exists |
| Sessions.ReplacedSessionRunsOut | src/services/auth/registration.service.ts:334-344 | a replaced session gets at most one more token pair, for the one request already past the check, and none when there is none |
| Sessions.SessionServer.Take | src/services/auth/registration.service.ts:317-320 | reading a refresh token takes it: the live claim is returned once and the token is gone |
| Sessions.SessionServer.SignIn | src/services/auth/registration.service.ts:249-254 | signing in makes the new session the only accepted one of a single-session account and stores its refresh token |
| Sessions.SessionServer.ResumeAndIssue | src/services/auth/registration.service.ts:334-344 | after its token was taken a refresh issues a new pair exactly if the session is current and the account allowed |
| Sessions.SessionServer.Refresh | src/services/auth/registration.service.ts:334-344 | a refresh succeeds exactly with a live token, a known and allowed account and a current session; the old token is spent, the new one carries the same account and session, and both have 30 days from now |
| Sessions.SessionServer.Revoke | src/services/auth/registration.service.ts:323-328 | revoking a live token spends it, ends its session if it is the current one, and leaves the session dead |
| OneTimeCodes.ReleaseSparesOthers | src/services/auth/registration.service.ts:108-119 | releasing never frees another owner's lock |
| OneTimeCodes.StepKeepsExclusive | src/services/auth/registration.service.ts:108-119 | with operations shorter than the lock's life at most one is inside it |
| OneTimeCodes.StepKeepsCodesCounted | src/services/auth/registration.service.ts:156-203 | every command keeps each code's log of wrong tries equal to its stored attempts, and success final |
| OneTimeCodes.FiveTriesOneSuccess | src/services/auth/registration.service.ts:156-172 | in every such run each stored code is compared wrongly at most 5 times and accepted at most once |
| OneTimeCodes.StepKeepsSends | src/services/auth/registration.service.ts:121-150 | every command keeps the counter in step with the streak of close codes |
| OneTimeCodes.SendsLimited | src/services/auth/registration.service.ts:121-150 | no four codes in a row are each within 3600 s of the last without a success, in every prompt run in which no counter lapses inside a request, so in every one whose checks find no counter or one with two minutes left; and no five within 3480 s in every prompt run |
| OneTimeCodes.AmpleIsSteady | src/services/auth/registration.service.ts:121-150 | in a prompt run whose checks find no counter, or one that outlives the lock, no counter lapses inside a request |
| OneTimeCodes.LapseSendsFourCodes | src/services/auth/registration.service.ts:141-143 | from every state between requests with a live counter below its limit there is a prompt continuation in which the counter expires between increment and expire, and four codes a minute apart are sent |
| OneTimeCodes.RequestIsSteadyExactly | src/services/auth/registration.service.ts:121-150 | it does exactly if the pause before the window is renewed reaches the counter's end |
| OneTimeCodes.LapseNeedsLateCheck | src/services/auth/registration.service.ts:121-150 | a prompt uninterrupted request can lose its counter exactly if less than the lock's life is left of it at the start |
| OneTimeCodes.LapseFromTheFirstCode | src/services/auth/registration.service.ts:121-150 | so from a number's first code on, whenever it is asked for |
| OneTimeCodes.CooldownHolds | src/services/auth/registration.service.ts:121-150 | while the cooldown runs no SMS is asked for and no code stored, in any run, prompt or not |
| OneTimeCodes.NextCodeWaits | src/services/auth/registration.service.ts:121-150 | after a request that sent a code, no run asks for another within a minute |
| OneTimeCodes.VerifyRuns | src/services/auth/registration.service.ts:156-172 | verifyOtp without interruption is a run of the machine ending in AfterVerify, for every guess and state |
| OneTimeCodes.RequestCounts | src/services/auth/registration.service.ts:121-150 | requestOtp that sends is a run of the machine ending in AfterRequest |
| OneTimeCodes.RefusalRuns | src/services/auth/registration.service.ts:121-150 | requestOtp that refuses, or whose SMS fails, is a run of the machine ending in AfterRefusal |
| OneTimeCodes.RequestsKeepCounts | src/services/auth/registration.service.ts:121-172 | both requests keep the lock, the code log and the counter sound |
| OneTimeCodes.PhoneCodes.Unlock | src/services/auth/registration.service.ts:108-119 | the lock is dropped only by its live owner |
| OneTimeCodes.PhoneCodes.VerifyOtp | src/services/auth/registration.service.ts:156-172 | the answer for every guess, told by the lock, the code's life and its 5 tries; a wrong one adds an attempt and keeps the code till it expires, an accepted one removes code and counter, any other changes nothing |
| OneTimeCodes.PhoneCodes.RequestOtp | src/services/auth/registration.service.ts:121-150 | the answer, told by the lock, 3 sends and the cooldown in this order; a sent code lives 5 minutes, cools for 1 and counts for an hour; a failed SMS takes code and cooldown away, a refusal changes nothing |
| MenuTime.NextStartIsLatest | src/services/company/companyFeature.service.ts:448-459 | a new period starts at the latest end of the menu's periods or now, whichever is later |
| MenuTime.NewGrantChains | src/services/company/companyFeature.service.ts:448-459 | a new period keeps every menu's periods a chain |
| MenuTime.AddGrantsChain | src/services/company/companyFeature.service.ts:389-415 | an approval's periods keep every chain |
| MenuTime.ChainHasNoGap | src/services/company/companyFeature.service.ts:448-459 | from now on a menu is covered exactly until its latest end |
| MenuTime.StepConserves | src/services/company/companyFeature.service.ts:389-459 | every event keeps granted time equal to the days of gifts and of approved orders, counted in the orders' own fields |
| MenuTime.StepDecidesOnce | src/services/company/companyFeature.service.ts:389-426 | every event keeps: an approved order has exactly one grant for each menu of its tier, or for its own menu, and a waiting or rejected one none |
| MenuTime.InOrderDistinct | src/services/company/companyFeature.service.ts:281-283 | the menus a tier is given are the chosen ones, each once, in the enumeration's order |
| MenuTime.DecisionIsFinal | src/services/company/companyFeature.service.ts:389-426 | an approved or rejected order never changes in any run of approvals and rejections |
| MenuTime.StepKeepsInv | src/services/company/companyFeature.service.ts:297-459 | every event keeps chains, conservation and decisions together |
| MenuTime.RunKeepsInv | src/services/company/companyFeature.service.ts:297-459 | every run keeps them |
| MenuTime.BoughtTimeIsKept | src/services/company/companyFeature.service.ts:389-459 | after any run periods of a menu are disjoint, cover it from now exactly to the latest end, and add up to the days bought and given |
| MenuTime.StaleReadOverlaps | src/services/company/companyFeature.service.ts:448-459 | a grant inserted from an older read keeps the chain exactly if no insertion since was for the same menu |
| MenuAccess.PaidFeatures | src/services/company/companyFeature.service.ts:175-185 | the menus sold are exactly those with an active plan or in an active tier |
| MenuAccess.CollectEnds | src/services/company/companyFeature.service.ts:201-213 | the loop collects each menu's latest end |
| MenuAccess.Prune | src/services/company/companyFeature.service.ts:201-213 | the pruning loop keeps exactly the menus with a started period |
| MenuAccess.OpenGrants | src/services/company/companyFeature.service.ts:201-213 | for rows in any order the result has exactly the menus covered now, with their latest ends |
| MenuAccess.PruningRemovesNothing | src/services/company/companyFeature.service.ts:201-213 | on every reachable state a menu with an unexpired period has a running one |
| MenuAccess.ReportedEndIsExact | src/services/company/companyFeature.service.ts:201-213 | with no further purchase a menu is open at a later time if and only if it is open now and that time is before the end reported now |
| MenuAccess.LockedFeatures | src/services/company/companyFeature.service.ts:111-172 | a parent has nothing locked, an unapproved company everything; any other exactly the menus with a price (all, if invited) of which no period of its own runs; and the purchase page shows just these locked, for every account, catalogue, grants and instant |
| MenuAccess.PageHasEveryMenu | src/services/company/companyFeature.service.ts:138-172 | every menu is on the page, with its status |
| MenuAccess.PageTells | src/services/company/companyFeature.service.ts:111-172 | what the page says of a menu: paid exactly if it has a price, with the latest end of the company's periods exactly while one runs, and locked by the account's fields, the price and the periods |
| MenuAccess.PageTellsWhenMenusLock | src/services/company/companyFeature.service.ts:126-172 | a menu is locked later exactly if it is locked now or its shown end has passed |
| MenuAccess.StartOfNext | src/services/company/companyFeature.service.ts:448-459 | the query for the latest open period finds the start of the next |
| MenuAccess.GrantAll | src/services/company/companyFeature.service.ts:389-415 | the approval's loop makes one grant per menu, of the order's company and exactly its days, each behind the last |
| MenuAccess.LatestOf | src/services/company/companyFeature.service.ts:389-415 | the grant announced is one of those made with the latest end |
| MenuAccess.CompanyMenus.AddGrant | src/services/company/companyFeature.service.ts:448-459 | appends one period that starts behind the latest |
| MenuAccess.CompanyMenus.GiveMenu | src/services/company/companyFeature.service.ts:444-446 | a gift appends one period of exactly its days for that company and menu, not in the past |
| MenuAccess.CompanyMenus.ApproveOrder | src/services/company/companyFeature.service.ts:389-415 | approves exactly a waiting order with menus; then there is one new grant for each menu of the tier, or for the order's own menu, and no other, each of its company and days, and the order is approved; refused changes nothing |
| MenuAccess.CompanyMenus.RejectOrder | src/services/company/companyFeature.service.ts:417-426 | rejects exactly a waiting order, which is rejected afterwards; nothing else changes |
| MenuAccess.CompanyMenus.SubmitTierOrder | src/services/company/companyFeature.service.ts:297-322 | accepted exactly for a company that is no parent, an active tier with menus sold for that period and no tier receipt already waiting; the order keeps the tier's menus, for 30, 90, 180 or 365 days |
| PlanExpiry.WorkerAgreesWithAccess | src/services/company/companyPlanExpiryWorker.service.ts:76-110 | on any rows the worker's end of a menu is the end of the access check |
| PlanExpiry.GroupByUser | src/services/company/companyPlanExpiryWorker.service.ts:76-110 | the map-building loop gives every company exactly its rows in order, once |
| PlanExpiry.OfUserKeeps | src/services/company/companyPlanExpiryWorker.service.ts:76-110 | a company's rows are exactly its own, and the first of them closes first |
| PlanExpiry.WithinHas | src/services/company/companyPlanExpiryWorker.service.ts:76-110 | a notice names exactly the menus closing within a day of its date |
| PlanExpiry.NoticeTells | src/services/company/companyPlanExpiryWorker.service.ts:76-110 | a company is told exactly if one of its bought menus closes within the reminder days; the date is the earliest, every menu named closes within a day of it, and the days left are those to it, rounded up |
| PlanExpiry.Expiring | src/services/company/companyPlanExpiryWorker.service.ts:76-110 | one true notice for each company with a bought menu closing within the reminder days, and for no other |
| PlanReminders.AttemptKeepsToldOnce | src/services/company/companyPlanExpiryWorker.service.ts:53-74 | no attempt, mark expiry or passing of time makes a told end date untold while it can still be noticed |
| PlanReminders.ToldAtMostOnce | src/services/company/companyPlanExpiryWorker.service.ts:53-74 | with fixed reminder days a company is told at most once per end date, by any number of instances, while each notice reaches its mark before the third day after the day of that end is begun |
| PlanReminders.LateAttemptTellsTwice | src/services/company/companyPlanExpiryWorker.service.ts:53-74 | from that moment on a notice that late tells a company again, for every end date and every reminder days |
| PlanReminders.ExpiryWorker.SetIfAbsent | src/services/redis/redis.service.ts:175-178 | the mark is set exactly if it was not there |
| PlanReminders.ExpiryWorker.Tick | src/services/company/companyPlanExpiryWorker.service.ts:53-74 | a sweep is a run of attempts; afterwards everything it was to tell is marked and has been told; an overlapping one does nothing |
| Invites.StepKeepsInv | src/services/company/inviteRules.ts:23-140 | every event keeps the rows tidy, and keeps at most one invite waiting (none once used) exactly if it is harmless: no link is written while another invite waits |
| Invites.RunKeepsInv | src/services/company/inviteRules.ts:23-140 | over every run, at most one invite waits at each moment exactly if every link of it was written harmlessly |
| Invites.RunKeepsTidy | src/services/company/inviteRules.ts:23-140 | every run, however late its links are written, keeps one row a pair, rows of driver accounts only, and a driver's companies those whose invite is not revoked |
| Invites.AtMostOneWaits | src/services/company/inviteRules.ts:37-62 | from the first invite on: at most one invite waits for a driver and none once any was used, at every moment of a run, exactly if its links are written harmlessly |
| Invites.TimelyLinkIsHarmless | src/services/company/driverInvite.service.ts:251-280 | a link written while its own invite is in force is harmless |
| Invites.LateLinkUnsettlesExactly | src/services/company/driverInvite.service.ts:251-280 | a link written after its read leaves a used invite beside a waiting one exactly if another invite waits for the driver by then |
| Invites.ComingInIsFinal | src/services/company/inviteRules.ts:37-62 | once an invite was used, in every run, links written late included: the account stays and stays used; and once none waits besides, none ever does again and nobody can invite it |
| Invites.SweepRevokesWorkingOnlyIfRenewed | src/services/company/inviteRules.ts:102-140 | with any events at all between SELECT and transaction, no used invite is revoked, and a working one exactly if renewed since the SELECT |
| Invites.SweepDeletesOnlyUnclaimed | src/services/company/inviteRules.ts:102-140 | of all events only a row's transaction makes an account go, and only one with no messenger, no used invite and no other invite in force; its invites and ties go with it |
| Invites.GoneAccountWasUnclaimed | src/services/company/inviteRules.ts:102-140 | an account gone in any run went by such a transaction at some moment of the run |
| Invites.LinkedStays | src/services/company/inviteRules.ts:119-130 | in every run from any state an account with a messenger stays |
| Invites.OtherKindIsNeverInvited | src/services/company/driverInvite.service.ts:181-185 | an account of another kind keeps it and stays, and is never invited or tied to a company, in every run from tidy tables |
| Invites.StrandedForever | src/services/company/inviteRules.ts:37-62 | an account whose invites are over and were all made, or renewed, more than a minute from it is never invited again and never deleted, in any run |
| Invites.RefusedExactly | src/services/company/inviteRules.ts:37-53 | an unused account with no invite waiting is refused to every company exactly if all its invites were made, or renewed, a minute or more from it |
| Invites.FirstInviteMayBeRepeated | src/services/company/inviteRules.ts:37-53 | an unused account with no invite waiting and one made within a minute of it may be invited by any company |
| Invites.RenewalStrandsTheAccount | src/services/company/inviteRules.ts:56-62 | a run in which one renewal strands an unused account |
| Invites.RenewedRowIsRevoked | src/services/company/inviteRules.ts:102-140 | a run in which the sweep revokes an invite whose link works |
| Invites.LateLinkLeavesTwo | src/services/company/driverInvite.service.ts:251-280 | a run in which a link read in its last moment and written late leaves one used and one waiting |
| InviteService.InvitesCanRun | src/services/company/driverInvite.service.ts:91-112 | a batch of invitations is always a run of the machine |
| InviteService.FirstOnesAre | src/services/company/driverInvite.service.ts:91-112 | a batch invites each valid number once and nothing else |
| InviteService.MayNotInviteIs | src/services/company/inviteRules.ts:37-53 | those three reasons are exactly when an account may not be invited |
| InviteService.InviteTables.FindPair | src/services/company/driverInvite.service.ts:136 | the search finds the pair's one invite row, or gives a new row's id |
| InviteService.InviteTables.InviteOne | src/services/company/driverInvite.service.ts:114-147 | refuses an account of another kind, and a driver's exactly when no invite of the company's own is in force and one of another's is, one was used, or none was made within a minute of the account; refused changes nothing, otherwise just the account, the tie and the pair's row are as an invite writes them |
| InviteService.InviteTables.Admit | src/services/company/driverInvite.service.ts:194-209 | the writes of renewing or joining are the machine's |
| InviteService.InviteTables.InviteAll | src/services/company/driverInvite.service.ts:91-112 | a batch is the run of its distinct good numbers in order; each bad input and each number where it first comes has a line, and a number's line says refused exactly when the rules refuse it after the numbers before it |
| InviteService.InviteTables.RemoveDriver | src/services/company/driverInvite.service.ts:225-234 | removing unties the driver and revokes the pair's invite now, exactly if it is unrevoked; no other row changes |
| InviteService.InviteTables.MarkInvitesUsed | src/services/company/inviteUsage.ts:28-46 | every unused invite of the number is used now, and no other row changes |
| InviteService.InviteTables.IsInvited | src/services/company/driverInvite.service.ts:251-280 | a link lets in exactly the invited number, while in force and the inviter's menu open, and counts as used then |
| InviteService.InviteTables.RevokeUnused | src/services/company/inviteRules.ts:102-140 | one row's transaction of the sweep revokes exactly an unused unrevoked row; its account goes with all its invites and ties exactly if the row was made within a minute of it, it has no messenger, none of its invites was used and no other is unrevoked |
| InviteService.InviteTables.ExpireOne | src/services/company/inviteRules.ts:102-140 | the same for a selected row, which is done with afterwards |
| InviteService.InviteTables.ExpireStaleInvites | src/services/company/inviteRules.ts:102-140 | run alone, on any tidy tables and in any order of the rows, the sweep leaves no unused unrevoked invite past its day, counts exactly those, keeps used ones, and leaves what expiring them one after another leaves; so a second one counts none |
| InviteSweep.SweepTakesExactly | src/services/company/inviteRules.ts:112-132 | of the rows swept in any order one takes its account exactly if it is the last of the account's rows still in force, was made within a minute of it, and nobody came in; every other account stays |
| InviteSweep.LastSweptDecides | src/services/company/inviteRules.ts:112-132 | of an unclaimed account all of whose rows in force are past their day, the row swept last decides: it goes exactly if that row was made within a minute of it |
| InviteSweep.TakenNeeds | src/services/company/inviteRules.ts:112-132 | an account taken had nobody come in, no invite waiting and a stale row that made it; any other stays in any order |
| InviteSweep.OrderDecides | src/services/company/inviteRules.ts:108-132 | with one stale row that made the account and one that did not, swapping the two in the order decides whether the account stays |
| InviteService.InviteTables.SelectStale | src/services/company/inviteRules.ts:102-140 | the SELECT finds exactly the stale invites |
| DigitGroups.GroupTwice | src/domain/helper/digitGroups.ts:14-21 | grouping what follows any character twice changes nothing more |
| DigitGroups.GroupingIsIdempotent | src/domain/helper/digitGroups.ts:14-21 | grouping is idempotent on every text |
| DigitGroups.GroupInserts | src/domain/helper/digitGroups.ts:14-21 | grouping only inserts separators between digits that stood side by side |
| DigitGroups.InsertedCanBeErased | src/domain/helper/digitGroups.ts:14-21 | erasing inserted separators gives the text back |
| DigitGroups.GroupingOnlyInserts | src/domain/helper/digitGroups.ts:14-21 | both, of every text |
| DigitGroups.GroupKeepsHead | src/domain/helper/digitGroups.ts:4-21 | grouping keeps the first character, so a neighbouring run sees the same |
| DigitGroups.GroupedAtThousands | src/domain/helper/digitGroups.ts:4-21 | in every text the separators stand exactly at the thousands of runs of four digits or more that start with no zero, follow none of . , ٬ ٫ / : + and have no / or : with a digit behind; Latin digits get a comma |
| DigitGroups.GroupedFieldFits | src/domain/helper/digitGroups.ts:23-24 | a field grouped never outgrows its column, and is grouped whenever that fits |
| Amounts.StripGrouped | src/domain/helper/digitGroups.ts:4-21 | after separators are taken out, a grouped text equals the original exactly unless «،» counts as a separator and stands before a run with a short first group; so always for weights |
| CargoPrice.GroupedPriceReadsTheSame | src/services/notification/cargoPrice.ts:48-67 | grouping never changes the amount and currency read, but for that case |
| CargoPrice.OnlyCommaBeforeDigit | src/domain/helper/digitGroups.ts:4 | that case needs «،» directly before a digit |
| FareTexts.CommaPriceIsLost | src/services/notification/cargoPrice.ts:48-67 | for every short run, «،» and longer run of that kind: the glued number is read before grouping, nothing after it |
| CargoPrice.HasMExactly | src/services/notification/cargoPrice.ts:29-33 | the pattern of the abbreviation «م» is found exactly where it stands before a Latin letter, a digit or an underscore |
| CargoPrice.DecimalReadsBack | src/services/notification/cargoPrice.ts:48-55 | the digits of a whole number read back as that number |
| TripFare.ReadAmount | src/domain/helper/tripFare.ts:80-90 | an amount read is positive and a safe integer |
| TripFare.ReadWeight | src/domain/helper/tripFare.ts:103-116 | a weight read is positive and at most what one truck carries |
| TripFare.GroupedAmountReadsTheSame | src/domain/helper/tripFare.ts:80-90 | grouping never changes a typed amount, but for the same case |
| TripFare.GroupedWeightReadsTheSame | src/domain/helper/tripFare.ts:103-116 | grouping never changes a weight, on every text and unit |
| TripFare.MatchesGrouped | src/domain/helper/tripFare.ts:186-188 | grouping neither makes nor breaks a match of a pattern without digits and separators |
| TripFare.GroupedListingGivesTheSameDefaults | src/domain/helper/tripFare.ts:186-196 | a load stored with grouped price and weight, within its columns, gives the form the same starting values |
| TripFare.ShownAmountReadsBack | src/domain/helper/tripFare.ts:153-155 | readAmount of moneyText is the same amount and currency for every positive safe integer and every fare currency |
| MoneyWords.MoneyWords | src/domain/helper/tripFare.ts:161-172 | the loop over the scales words the amount as Worded says; other currencies as figures |
| MoneyWords.WordedReadsBack | src/domain/helper/tripFare.ts:161-172 | the figures and scale words of an amount add up to it, for every non-negative amount |
| MoneyWords.WordedIsInjective | src/domain/helper/tripFare.ts:161-172 | no two amounts are worded alike |
| FareTexts.WordedReadsItsFirstPart | src/domain/helper/tripFare.ts:80-90 | readAmount of an amount in words is its first part, for every positive safe integer: the figure times its own scale, whatever scales follow |
| FareTexts.WordedReadsBackExactlyWithOnePart | src/domain/helper/tripFare.ts:161-172 | an amount in words reads back exactly when nothing of it is below its largest scale |
| FareTexts.BareFigureReadsBack | src/domain/helper/tripFare.ts:80-90 | a bare figure as shown is a typed amount as written, and a load's price from a million tomans on |
| FareTexts.RialsReadAsTomans | src/services/notification/cargoPrice.ts:48-67 | every figure in rials reads as a tenth of it in tomans, rounded |
| FareTexts.AbbreviationScalesExactly | src/services/notification/cargoPrice.ts:29-33 | where no other word for a million or more stands, the scale is a million exactly if «م» stands before such a character |
| FareTexts.AbbreviationIsLost | src/services/notification/cargoPrice.ts:29-33 | as it is written, behind a figure at the end, it is not read: every figure is taken as tomans, or as no price below a million |
| FareTexts.AbbreviationCounts | src/services/notification/cargoPrice.ts:29-33 | with a Latin letter, digit or underscore stuck to it, «م» makes every figure millions |
| FareTexts.CommaPriceChanges | src/services/notification/cargoPrice.ts:48-67 | for every two such runs with «،» between and every currency behind: the price, the amount and the form's rate are the runs glued together before grouping, and the first run alone after it |
| FareTexts.WholeTonsReadBack | src/domain/helper/tripFare.ts:103-116 | every whole figure of tons: hundreds of them are refused past 200, thousands are kilograms, whatever unit is picked |
| FareTexts.WholeKilosReadBack | src/domain/helper/tripFare.ts:103-116 | every whole figure in kilograms reads as that weight, whatever unit is picked |
| FareTexts.BareWeightReadsBack | src/domain/helper/tripFare.ts:103-116 | every bare figure is in the unit picked, but for tons past 200, which are kilograms |
| FareTexts.ShownWeightReadsBack | src/domain/helper/tripFare.ts:175-176 | every weight up to 200 tons, shown in tons with its decimals, reads back exactly |
| FareTexts.ListingReadsBack | src/domain/helper/tripFare.ts:186-196 | a load written with the texts of a fare gives the form that amount, currency and weight, as a total |
| PriceTexts.PerTonListingReadsBack | src/domain/helper/tripFare.ts:186-196 | a price with «تنی», «هر تن» or per ton before it gives the form that rate by the ton, in every currency |
| PriceTexts.DecimalPriceReadsBack | src/services/notification/cargoPrice.ts:48-67 | every figure with up to two decimals behind a Persian point, and each spelling of a scale, reads back to the toman |
| PriceTexts.SpokenPriceReadsBack | src/services/notification/cargoPrice.ts:43-67 | every number from 1 to 999 in words, with each spelling of a scale behind it, reads as so many of that scale |
| PriceTexts.SpokenWeightReadsBack | src/domain/helper/tripFare.ts:103-116 | every number from 1 to 999 in words with «تن» reads as so many tons, and past 200 as none |
| PriceTexts.SignReadsBack | src/services/notification/cargoPrice.ts:35-40 | every figure with $, usd, €, eur, aed or try behind it, in any case, reads as that amount of that currency |
| NumberWords.BelowThousand | src/domain/helper/persianNumberWords.ts:7-17 | the parts pushed are those of the group's hundreds, tens and ones |
| NumberWords.IntegerToPersianWords | src/domain/helper/persianNumberWords.ts:20-33 | the dividing loop words the absolute value as InWords says |
| NumberWords.WordsValueRecoversGroups | src/services/notification/cargoPrice.ts:43-46 | wordsValue recovers every group from 1 to 999 from its words |
| NumberWords.WordsMeanLastTwelveDigits | src/domain/helper/persianNumberWords.ts:20-33 | a listener of the words hears the number's last twelve digits, for every number |
| NumberWords.WordsAreDecodable | src/domain/helper/persianNumberWords.ts:20-33 | the listener recovers the number exactly when it is below 10^12 |
| NumberWords.WordsAreInjective | src/domain/helper/persianNumberWords.ts:20-33 | no two numbers below 10^12 have the same words |
| NumberWords.SilentNumbers | src/domain/helper/persianNumberWords.ts:20-33 | the words are empty exactly for positive multiples of 10^12 |
| Verification.EvaluateVerification | src/services/driver/driverVerification.service.ts:135-156 | in the fields of profile and answers: shahkar passes exactly if matched, person if alive with both names equal, licence if one is found and the typed number among them, score if answered, each by an answer for the fields as they are and the last two with shahkar passed; missing exactly without the fields; verified exactly with the first three |
| Verification.FieldsTell | src/services/driver/driverVerification.service.ts:89-156 | the same of each check's view on its own, failed included |
| Verification.SettledExactlyFor | src/services/driver/driverVerification.service.ts:135-156 | a check is passed or failed exactly when its inputs are there, its answer is for them and shahkar has passed where it must |
| Verification.ChangedInputUnsettles | src/services/driver/driverVerification.service.ts:69-80 | changing an input makes the check pending or missing, and licence and score too when it is one of shahkar's |
| Verification.AnswerKeepsQuota | src/services/driver/driverVerification.service.ts:217-224 | an answered inquiry keeps the stored count equal to its day's answered inquiries |
| Verification.RunKeepsInv | src/services/driver/driverVerification.service.ts:176-215 | every serial run of visits and edits keeps the count, the answers and the log in step |
| Verification.QuotaHolds | src/services/driver/driverVerification.service.ts:217-224 | on no UTC day are more than 12 inquiries answered, and the stored count is that of its day |
| Verification.CallsAreAnsweredOrFailed | src/services/driver/driverVerification.service.ts:176-224 | on every day of every run the paid calls made are those answered and those failed: at most 12, and the failed ones besides |
| Verification.FailedCallsAreNotCounted | src/services/driver/driverVerification.service.ts:182-224 | any number of visits whose calls fail, at one moment: each makes one call exactly if it comes to a due check (any of the four) with room in the day's count, and record and count stay as they were |
| Verification.NotRepeatedWhileFresh | src/services/driver/driverVerification.service.ts:176-200 | of two inquiries in a row for a check with the same inputs, the first answer was stale when the second was asked |
| Verification.AskedInOrder | src/services/driver/driverVerification.service.ts:176-215 | licence rests on an earlier accepted shahkar answer for the current inputs, still valid when the visit began, and score on such a licence answer as well |
| Verification.RefreshBrings | src/services/driver/driverVerification.service.ts:182-224 | bringing a check up to date: due by its fields, key and age (180, 30, 7 days, an hour if failed), refused at 12 a day, one call, the answer stored for those fields and counted, and nothing changed otherwise |
| Verification.VisitUpdatesAll | src/services/driver/driverVerification.service.ts:176-215 | a visit that does not throw leaves every check it comes to with an answer for the fields as they are that was still good when asked |
| Verification.DriverRow.SpendQuota | src/services/driver/driverVerification.service.ts:217-224 | full exactly with 12 spent on the day; otherwise one more is spent |
| Verification.DriverRow.Refresh | src/services/driver/driverVerification.service.ts:182-203 | one check brought up to date: a call made exactly when it is due and the quota has room, its answer stored at once, nothing stored when it throws |
| Verification.DriverRow.Verify | src/services/driver/driverVerification.service.ts:176-215 | a visit is the machine's: shahkar, person, then licence and score behind their gates, ending where a call throws |
| BrokerCredit.StepKeepsBalance | src/services/company/brokerAccess.service.ts:310-338 | every statement or transaction keeps the balance |
| BrokerCredit.RequestsAreConserved | src/services/company/brokerAccess.service.ts:310-417 | in every interleaved run a broker's remaining requests are approved packages plus gifts plus refunds less those taken, and never negative |
| BrokerCredit.NeverMoreThanBought | src/services/company/brokerAccess.service.ts:310-331 | however calls interleave, a broker's saved and pending load requests are at most what it bought and was given |
| BrokerCredit.DecisionIsFinal | src/services/company/brokerAccess.service.ts:392-417 | a decided order never changes in any run, so it is credited at most once |
| BrokerCredit.ApprovedOnce | src/services/company/brokerAccess.service.ts:392-406 | approving a waiting package adds exactly its requests to its buyer, and deciding it again changes nothing |
| BrokerCredit.Requests.UseRequest | src/services/company/brokerAccess.service.ts:310-319 | counted exactly for a broker while requests are sold and brokers are not open, with one remaining, which is then one less |
| BrokerCredit.Requests.RefundRequest | src/services/company/brokerAccess.service.ts:321-323 | gives back one request that was taken |
| BrokerCredit.Requests.RequestLoad | src/services/notification/cargoTrip.service.ts:198-206 | a load request takes one and gives it back exactly when it is not saved, so refunds are of requests taken, once each |
| BrokerCredit.Requests.AddCredit | src/services/company/brokerAccess.service.ts:325-331 | the upsert adds to the row or makes it |
| BrokerCredit.Requests.GrantRequests | src/services/company/brokerAccess.service.ts:334-338 | a gift to a broker adds exactly its requests and reports the remaining; to others nothing |
| BrokerCredit.Requests.SubmitPackageOrder | src/services/company/brokerAccess.service.ts:341-367 | accepted exactly for a broker, while requests are sold, 1 to 100 packages and none waiting; the order carries packages times size |
| BrokerCredit.Requests.ApproveOrder | src/services/company/brokerAccess.service.ts:392-406 | approves exactly a waiting order, which is approved afterwards; a package's requests are added to its buyer's and nothing else changes |
| BrokerCredit.Requests.RejectOrder | src/services/company/brokerAccess.service.ts:408-417 | rejects exactly a waiting order, which is rejected afterwards; nothing else changes |

## Left out

- InviteService.InviteTables.RemoveDriver: the update of the invite and the save of the driver's companies are one event,
  because the list of companies is read and saved whole and a concurrent save of it may be lost either way.
- InviteService.InviteTables.IsInvited: `usedByLink` is not kept, and nothing comes between its read and its write; that is
  what the events `OpenLink` and `UseLink` of the machine are for.
- OneTimeCodes.FiveTriesOneSuccess: for operations shorter than the lock's life, the assumption the lock is built on.
- MenuTime.BoughtTimeIsKept: approvals and gifts are one transaction each, run one after another, because two reads before
  two insertions overlap; `StaleReadOverlaps` says exactly when.
- CargoPrice.GroupedPriceReadsTheSame: its condition is exact for the text the reader sees (`Amounts.StripGrouped`); two
  different texts may still say the same price, so for the price it goes one way.
- PlanReminders.ToldAtMostOnce: reminder days are whole and at least one.
- TripFare.GroupedAmountReadsTheSame: as for the price, one way, because different texts may say the same amount; likewise
  `GroupedListingGivesTheSameDefaults`. `FareTexts.CommaPriceChanges` has the inputs for which they fail.
- BrokerCredit.Requests.RefundRequest: a refund is of a request taken and not yet given back, which the source leaves to
  its caller; `RequestLoad` is that caller, and `NeverMoreThanBought` rests on it.
- Verification.QuotaHolds: visits and profile edits of one driver come one after another, because of two at the same time
  the last stored record wins.
- Redis and database failures, and a server stopping in the middle of a request; Redis is reliable and its clock monotone.
- Access tokens, sign-up tokens and the administrators' sign-in; of the tokens only refresh tokens are modelled.
- The mode without SMS codes, the content of messages, and everything of verifyOtp after the code was accepted but signing in.
- Limits checked before an insertion (one open receipt per company or broker) are claimed for calls that do not overlap.
- Prices, receipts and currency texts of orders, `currentTier`, and the tier's title in notices.
- Invites of brokers, companies and parents: the drivers' kind stands for them. Invite tokens, codes and SMS.
- Deleting an account deletes its invites and ties, and a role once taken is kept, as the database's constraints have it.
- Floating point: typed decimals and weights are exact reals, and figures too long for a double are exact too.
- Names of inherited object properties, which the reader of number words would take for words.
- Lengths count characters, not UTF-16 units (`groupedField`).
- `decimalToPersianWords` and `spellNumbersInText`.
- Hashing of inquiry inputs, and the normal forms of mobiles, dates and names: the model starts from normalised fields.
- Broker orders for companies add companies, not requests; of them only the decision is modelled.
