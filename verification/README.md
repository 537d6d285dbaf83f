# A model of the gift registry's rules

A gift list shows items; givers either reserve an item or co-buy it with others, the owner
stays blind to who gives, and background sweeps free what was forgotten. This project models
the parts of the program where those promises are kept and proves them for every run.

- `Prelude`, `Text`: sums over rows, 64-bit wrap-around, white space, decimals.
- `Cobuying`, `Reservations`, `ItemLedger`: the rows of one item and every operation on them
  as functions of the rows, with what each operation keeps.
- `ItemStore`: the same operations as methods of a class that change the stored rows step by
  step, each proved to carry out its function.
- `LedgerRuns`, `Consent`, `LateProposal`: every interleaving of requests and sweeps on one
  item. Exclusivity of the two tracks, no oversell and no overfund, exact funding, a single
  live match, consent of every member before any contact leaves, one reveal.
- `ProposalRace`, `RaceConsent`, `ListedTwice`, `StaleCreate`: the same when other requests
  come between the two storage calls of a proposal.
- `Outcomes`: what each of these requests must come to, told from the rows alone: what is let
  in, when a match is proposed, how long a link works.
- `Decay`, `DecayRuns`, `SweepHistory`, `StaleSweep`, `Durations`, `ConfirmRace`: the
  reservation sweep beside the requests it races: no silent expiry, one reminder per active
  spell, when archived time counts and when it does not, the deadline shown is the one
  enforced, one token per confirmed hold.
- `RateLimit`: the failure limiter against its event log, and the password-reset throttle.
- `Domains`, `TicketGuard`, `AccessTokens`: domain claims, one-time sign-in tickets, and
  personal access tokens under interleaved requests.
- `Catalogue`: export and import of a list as a table.

## How the source is read

- A storage operation that runs under a row or item lock is one step; steps interleave
  freely. Prices and quantities a request checks against were read before it took the lock:
  in a run they are any value the item has had. An owner's edit writes back a whole row read
  earlier, so in a run it writes any price, or none, and any quantity.
- Contribute, decline and withdraw are several storage calls. Decline and withdraw are one
  step each. Contribute is one step (`ContributeStep`), two in `LedgerRuns` (`PledgeStep`,
  `LateProposeStep`), and three in `ProposalRace`, where the proposal lists the pending
  pledges in one step and creates its match in another; giving the members their tokens
  stays with the create, and may fail for any of them. Authenticating a match action and
  confirming it are separate steps.
- The clock never goes back, except in `AccessTokens`, where readings come in any order. A
  request reads it in the step in which it changes a row; a sweep reads it once per pass,
  together with its candidates.
- Ids and tokens are drawn from a counter, so each is new; hashing is injective, and sentinels
  and the empty column differ from every hash. A ticket's signature fixes its expiry.
- Sending mail and looking up DNS are answers from outside: any answer is possible.
- Integer columns hold 64 bits, and a SUM that does not fit is a storage error. Adding one
  more pledge or quantity in the handler wraps, which is modelled. That is SQLite; the
  Postgres columns of quantities and amounts are INTEGER, 32 bits, and refuse a larger value,
  so the input of `OversellByOverflow` can be stored on SQLite only.

## Where the code does less than its comments say

- A proposal runs outside the item lock. Overtaken between pledge and proposal, it is exactly
  funded if and only if it finds the item not funded past the price it read
  (`ReachableExactFunding`), and at most one match is live throughout if and only if every
  late proposal that finds the item covered finds no live match (`ReachableSingleMatch`;
  `LateProposalBreaksSingleMatch` is a run that fails).
- Creating a match stamps the pledges the request listed without looking at them again. Rows
  stay consistent and nothing is revived if and only if every create finds them still pending
  (`RaceSoundIff`); exact funding and the single match then have the same conditions as above
  (`RaceExactFunding`, `RaceSingleMatchIff`). In `TwoMatchesOverSamePledges` two requests list
  before either creates, and the item is never funded past its price.
- A match completes when the pledges linked to it are confirmed, and is then read out to its
  members with the contacts of all of them. `RaceDisclosureNeedsEveryConsent` holds while the
  creates find their pledges pending; `MemberNeverAsked` is a run in which one does not. The
  mails of the reveal are safe in every run (`RaceRevealNeedsConsent`, `CompletedByAllIff`).
- The capacity checks add with wrap-around: a quantity or pledge so large that the sum leaves
  64 bits passes them. `ReserveWithinWantedIff` and `PledgeWithinPriceIff` give the exact
  condition for one request, `ReachableBounded` for a run, `OversellByOverflow` and
  `OverfundByOverflow` inputs.
- A decay period above 106751 days wraps, and then chases too early (`DaysDurationExactIff`,
  `ChasedOnTimeIff`, `LongPeriodChasesAtOnce`); so do confirm minutes that leave 64 bits
  (`MinutesExactIff`).
- A ticket's expiry check and its consumption read the clock separately; a ticket that was
  used and expires between the two is accepted again (`AcceptedOnceIff`,
  `ExpiryBetweenReadings`).
- An export holds up to 2000 items of any size; an import takes at most 500 and at most 1 MiB.
  `CopyList` says exactly which lists can be copied, whatever size their files have;
  `LongListNotCopied` and `LongNoteNotCopied` are two that cannot. A text comes back without
  the carriage returns before its newlines, an empty optional text as none (`CopyExactIff`).
- A confirm that loses a race to another confirm whose hold has since been chased is told
  that its window passed (`WrongWindowPassedIff`, `LoserToldWindowPassed`). The sweep chases
  the hold only when its decay period has passed, so the losing call was in flight for that
  long (`LoserToldAfterADay`), or for no time with a period that wraps (`LoserToldAtOnce`).
- A pass acts on what it read, and its steps come later: archived time counts exactly when it
  falls between a pass's read and its step (`ReminderCountsArchiveIff`,
  `ExpiryCountsArchiveIff`; `RemindsOfArchivedItem` and `StaleReminderExpiresEarly` are runs).

## Model

| member | source | states |
|---|---|---|
| Prelude.Wrap64 | internal/storage/sqlstore/contributions.go:115-118 | 64-bit additions wrap: the result always fits, and is the true sum when that fits |
| Prelude.WrapSum | internal/api/cobuying.go:152-159 | an int64 running sum that wraps after every addition is the true sum wrapped once |
| Prelude.TotalRemove | internal/storage/sqlstore/contributions.go:106-114 | a database SUM does not depend on the order of the rows |
| Prelude.TotalOfPart | internal/storage/sqlstore/contributions.go:106-118 | part of a table of positive amounts sums to less than the whole unless it is the whole |
| Cobuying.MatchMeaning | internal/storage/storage.go:397-416 | proposed: at least two members, all present, linked, matched or confirmed, not all confirmed; both_confirmed: all present and confirmed; resolved otherwise: no linked pledge is live |
| Cobuying.InsertKeeps | internal/storage/sqlstore/contributions.go:90-131 | inserting a pledge keeps match and pledge rows consistent, adds exactly it to the live ones and its amount to the funding |
| Cobuying.ProposeKeeps | internal/storage/sqlstore/matches.go:16-57 | creating a match and stamping its members keeps consistency, revives nothing, changes no live set |
| Cobuying.DissolveKeeps | internal/api/cobuying.go:521-549 | dissolving a proposed match, however the caller leaves the excepted pledge, keeps every other row consistent, revives nothing and ends no live pledge |
| Cobuying.DeclineKeeps | internal/api/cobuying.go:313-328 | a decline keeps consistency, revives nothing, and takes exactly the decliner out of the live pledges |
| Cobuying.DeclineEffect | internal/api/cobuying.go:313-328 | what a decline by a member of a proposed match leaves: the decliner declined and alone linked, every other member present, pending and unlinked, no member's match-action token, every other row untouched |
| Cobuying.WithdrawKeeps | internal/api/cobuying.go:245-278 | a withdrawal keeps consistency; it is refused or removes exactly that pledge; terminal matches are not dissolved again |
| Cobuying.WithdrawalRefusedIff | internal/api/cobuying.go:251-278 | a withdrawal is refused, changing nothing, if and only if the pledge is a member of a completed match; in every other case, terminal matches included, the pledge is gone |
| Cobuying.WithdrawEffect | internal/api/cobuying.go:256-278 | what a withdrawal does to the others: a proposed match is declined and its other members are pending, unlinked and without match-action token; rows outside it are untouched |
| Cobuying.ConfirmKeeps | internal/storage/sqlstore/matches.go:168-237 | a confirm, completing or not, keeps the rows consistent |
| Cobuying.ConfirmEffect | internal/storage/sqlstore/matches.go:168-237 | a confirm revives nothing, moves no resolved match, and changes neither amounts nor the set of live pledges |
| Cobuying.ConfirmProgress | internal/storage/sqlstore/matches.go:168-237 | a member of a proposed match is confirmed, and the match complete with its tokens spent exactly when every other member had confirmed; any other confirm changes nothing |
| Cobuying.ExpireKeeps | internal/storage/sqlstore/matches.go:239-280 | expiring a match keeps consistency, revives nothing, and takes exactly its members out of the live pledges if it is still proposed |
| Cobuying.ExpireEffect | internal/storage/sqlstore/matches.go:239-280 | it expires exactly the match and its members, with their tokens, if it is still proposed, and changes no row otherwise |
| Cobuying.ExpireAllKeeps | internal/cobuy/sweep.go:50-67 | a whole expiry pass keeps the rows consistent |
| Cobuying.ExpireOneMore | internal/cobuy/sweep.go:50-67 | expiring overdue matches one after another is expiring them all at once |
| Cobuying.FundedShrinks | internal/storage/sqlstore/contributions.go:106-118 | whatever revives no pledge and adds none cannot raise the funding |
| Cobuying.ExactWhenNotOverfunded | internal/api/cobuying.go:144-171 | a covered item not funded past the price: the pending pledges are all the live ones, sum to exactly the price, and no other match is live |
| Cobuying.ProposalExactIff | internal/api/cobuying.go:144-171 | a proposal takes in every live pledge at exactly the price if and only if the item is then not funded past that price |
| ItemLedger.UnitsShrink | internal/storage/sqlstore/reservations.go:117-156 | a step that adds no reservation cannot raise the reserved units |
| ItemLedger.ReserveKeeps | internal/storage/sqlstore/reservations.go:117-156 | a reserve made when nothing is co-bought keeps the ledger sound and adds exactly its quantity |
| ItemLedger.PledgeKeeps | internal/storage/sqlstore/contributions.go:90-131 | a pledge made when nothing is reserved keeps the ledger sound and adds exactly its amount |
| ItemLedger.ProposalKeeps | internal/api/cobuying.go:144-194 | the proposal keeps the ledger sound and revives nothing |
| ItemLedger.ContributeKeeps | internal/api/cobuying.go:88-131 | the whole contribute request keeps the ledger sound |
| ItemLedger.CobuyStepKeeps | internal/api/cobuying.go:245-352 | a co-buying action that only frees pledges keeps both tracks exclusive and every id accounted for |
| ItemLedger.ReservationStepKeeps | internal/storage/sqlstore/decay.go:42-119 | a reservation transition keeps both tracks exclusive |
| ItemLedger.OwnerStepKeeps | internal/storage/sqlstore/items.go:175-297 | editing, archiving and un-archiving keep the ledger sound |
| ItemLedger.ReserveWithinWantedIff | internal/storage/sqlstore/reservations.go:117-156 | an accepted reserve stays within the quantity it was checked against if and only if the checked sum fits 64 bits |
| ItemLedger.PledgeWithinPriceIff | internal/storage/sqlstore/contributions.go:106-118 | an accepted pledge stays within the price it was checked against if and only if the checked sum fits 64 bits |
| ItemLedger.OversellByOverflow | internal/storage/sqlstore/reservations.go:117-156 | a concrete wrapped sum that passes the check and oversells the item |
| ItemLedger.OverfundByOverflow | internal/storage/sqlstore/contributions.go:106-118 | a concrete wrapped sum that passes the check and overfunds the item |
| LedgerRuns.StepKeepsLedger | internal/storage/sqlstore/contributions.go:90-131 | every step of the item's machine keeps the ledger sound and revives nothing |
| Outcomes.ReserveOutcome | internal/storage/sqlstore/reservations.go:117-156 | a reserve is let in, with one row of its quantity, if and only if no pledge holds the item and that many units are left of the quantity read; otherwise nothing changes |
| Outcomes.UnitsHeld | internal/storage/sqlstore/reservations.go:135-140 | a reservation holds exactly its units through confirming, reminding and keeping, until it is released or expires |
| Outcomes.FreedUnitsTaken | internal/storage/sqlstore/reservations.go:135-140 | the units of a reservation that was released or expired can be reserved again |
| Outcomes.PledgeOutcome | internal/storage/sqlstore/contributions.go:90-131 | a pledge is let in if and only if no reservation holds the item and as much is left of the price read; otherwise nothing changes |
| Outcomes.FundingFreed | internal/api/cobuying.go:245-328 | a live pledge that is withdrawn or declines takes exactly its amount out of the funding |
| Outcomes.LateProposalOutcome | internal/api/cobuying.go:144-171 | a proposal by itself makes a match if and only if at least two pledges are pending and they reach the price |
| Outcomes.ContributeOutcome | internal/api/cobuying.go:88-171 | a contribute request is let in as a pledge is, and proposes a match over all pending pledges if and only if another one was pending and they reach the price together |
| Outcomes.ReachableContribution | internal/api/cobuying.go:144-171 | in every run whose sums fit 64 bits, an accepted contribute request leaves no two pending pledges that reach its price |
| Outcomes.AnswerDetermined | internal/api/cobuying.go:381-421 | the answer to a token is the one its pledge determines: an actor by capability, or by match-action token before the instant it expires |
| Outcomes.AuthenticateEnabledIff | internal/api/cobuying.go:381-421 | in every reachable state a token can be authenticated for a match action of a pledge if and only if the pledge is linked to the match and the token is its capability or its unexpired match-action token |
| Outcomes.DeclineEnabledIff | internal/api/cobuying.go:282-328 | in every reachable state a member can decline, with a token that admits it, exactly while the match is proposed |
| Outcomes.ConfirmEnabledIff | internal/api/cobuying.go:282-352 | a confirm or a read of a match is possible exactly once its token was authenticated for it |
| Outcomes.OwnerOutcome | internal/storage/sqlstore/items.go:175-297 | an edit writes price and quantity, archiving sets the mark once, un-archiving clears it and restarts both clocks of every live reservation; nothing else changes |
| Outcomes.LinksOutlastNoSweep | internal/api/cobuying.go:173-191 | a proposal's links work exactly for the confirm window, and the expiry sweep takes the match only after that |
| Outcomes.FreshHoldConfirms | internal/api/reservations.go:389-446 | a new hold's confirm link finds that hold alone, and confirming makes the new capability its only one |
| LedgerRuns.ReachableExclusive | internal/storage/sqlstore/contributions.go:90-131 | in every reachable state an item never has both a live reservation and a live pledge, and match and pledge rows agree |
| LedgerRuns.NothingRevived | internal/api/cobuying.go:256-265 | over any stretch of a run no expired reservation, terminal pledge or resolved match comes back |
| LedgerRuns.ReachableBounded | internal/storage/storage.go:316-321 | although requests check stale reads, live units never exceed the largest quantity the item ever wanted, nor live pledges its largest price, if and only if no sum that is let in leaves 64 bits |
| LedgerRuns.ProposesExactly | internal/api/cobuying.go:92-171 | a step that proposes takes in all live pledges, at exactly the price its request read and with no other live match, if and only if it came with its own pledge or finds the item not funded past that price |
| LedgerRuns.ReachableExactFunding | internal/api/cobuying.go:144-171 | the same for every proposal of every run in which what is let in fits 64 bits |
| LedgerRuns.ContributionExact | internal/api/cobuying.go:88-131 | a contribute request that proposes does so at exactly its price |
| LedgerRuns.ReachableSingleMatch | internal/api/cobuying.go:140-194 | whatever the owner does to the price, at most one match is proposed or completed throughout a run if and only if every late proposal that finds the item covered finds no live match |
| LateProposal.LateProposalBreaksSingleMatch | internal/api/cobuying.go:116-121 | a concrete run with two proposed matches when a proposal comes later than its pledge and the price was raised between |
| ProposalRace.CreateIsPropose | internal/api/cobuying.go:144-191 | with nothing in between, listing the pending pledges and creating the match is the one-step proposal |
| ProposalRace.CreateKeepsIff | internal/storage/sqlstore/matches.go:16-57 | creating a match over given members keeps match and pledge rows consistent and revives no pledge if and only if each member is pending |
| ProposalRace.RaceStepKeepsIff | internal/storage/sqlstore/matches.go:16-57 | in the machine that lists and creates in separate steps a step keeps the ledger sound and revives nothing if and only if a create finds what it listed still pending |
| ProposalRace.RaceSoundIff | internal/api/cobuying.go:144-171 | the same for whole runs: every state is exclusive and consistent and nothing is ever revived if and only if every create finds what it listed still pending |
| ProposalRace.RaceExactFunding | internal/api/cobuying.go:144-171 | in such runs a create takes in all live pledges at exactly the price its request read if and only if the item is then not funded past it |
| ProposalRace.RaceSingleMatchIff | internal/api/cobuying.go:144-171 | in such runs at most one match is live throughout if and only if every create finds none live |
| ListedTwice.TwoMatchesOverSamePledges | internal/api/cobuying.go:148-171 | a concrete run, never funded past its price, in which two requests list before either creates: two proposed matches over the same pledges, and rows that disagree |
| RaceConsent.RaceDisclosureNeedsEveryConsent | internal/api/cobuying.go:282-352 | a contact leaves the system for a match only after each of its members confirmed that same match with its own token, with list and create apart, as long as the creates until then found what they listed still pending |
| RaceConsent.RaceRevealNeedsConsent | internal/api/cobuying.go:330-351 | whatever the creates find, the contacts a completing confirm sends out are of pledges that each confirmed that same match with its own token |
| RaceConsent.CompletedByAllIff | internal/storage/sqlstore/matches.go:168-237 | a completing confirm leaves every member of the match confirmed if and only if every member is still linked to it |
| StaleCreate.MemberNeverAsked | internal/api/cobuying.go:431-475 | a concrete run in which a stale create takes a pledge out of its match, which then completes and is read out although that member never confirmed it |
| Consent.ReachableTokensPersonal | internal/api/cobuying.go:181-191 | in every reachable state no two pledges share a capability or match-action token |
| Consent.DisclosureNeedsEveryConsent | internal/api/cobuying.go:282-352 | a contact leaves the system for a match only after each of its members confirmed that same match with its own token |
| Consent.CompletesOnce | internal/api/cobuying.go:330-351 | a match completes, and its reveal goes out, at most once |
| Consent.CompletedByAConfirm | internal/storage/sqlstore/matches.go:168-237 | every completed match was completed by one confirm of that match |
| ItemStore.Sum | internal/storage/sqlstore/contributions.go:106-114 | the SUM the capacity checks read |
| ItemStore.ItemStore.CheckReserve | internal/storage/sqlstore/reservations.go:117-142 | lets a reserve in exactly when no pledge holds the item and the units are left, and says which check refused it |
| ItemStore.ItemStore.CheckPledge | internal/storage/sqlstore/contributions.go:95-117 | lets a pledge in exactly when no reservation holds the item and the amount is left of the price, and says which check refused it |
| ItemStore.GiversTold | internal/api/archive.go:155-191 | every live holder with an address that is not blank is among those told, letter case and padding aside |
| ItemStore.ItemStore.ReserveWithinCapacity | internal/storage/sqlstore/reservations.go:117-156 | reserves exactly when the item is not co-bought and the units are left of the quantity read, with a new id and token; otherwise changes nothing: cross-track exactly when co-bought, a storage error exactly when the SUM does not fit, over-capacity else |
| Reservations.TryTransition | internal/storage/sqlstore/decay.go:42-64 | a row moves exactly from its source state to the target state, stamped with the instant; which columns each transition writes, and that only the caller that moved the row is told so |
| Reservations.Lifecycle | internal/storage/types.go:335-351 | the edges of a reservation's life: confirmed or expired while pending, reminded while active, kept or expired after that |
| Reservations.NewReservationMeans | internal/api/reservations.go:238-257 | what a new reservation holds: which of capability and confirm link its token is, for each way to reserve, and its state, clocks, account and address |
| ItemStore.ItemStore.TransitionState | internal/storage/sqlstore/decay.go:42-64 | moves a row exactly when it is still in the source state; reports whether this call did |
| ItemStore.ItemStore.Release | internal/storage/sqlstore/reservations.go:252-259 | deletes exactly the named row |
| ItemStore.ItemStore.ByLink | internal/storage/sqlstore/decay.go:11-36 | finds a row by the hash of its confirm, keep or release token, if there is one |
| ItemStore.ItemStore.ConfirmReservation | internal/api/reservations.go:389-446 | issues a token exactly for a hold still pending, stores its hash, and reports 404, 410 or already-active otherwise |
| ItemStore.ItemStore.KeepByDecayToken | internal/api/reservations.go:586-621 | a keep link acts exactly on a chased reservation, restarts its clock and spends both links |
| ItemStore.ItemStore.ReleaseByDecayToken | internal/api/reservations.go:548-581 | a release link deletes the reservation unless it has expired |
| ItemStore.ItemStore.ArchiveItem | internal/api/archive.go:20-75 | sets the mark once, warns exactly when a match is still proposed, and tells the givers exactly when this call set the mark |
| ItemStore.ItemStore.ArchiveWarnings | internal/api/archive.go:125-153 | one warning however many handshakes are in flight |
| ItemStore.AddNotice | internal/api/archive.go:184-191 | a notice is added exactly for a new non-blank address |
| ItemStore.ItemStore.NotifyGiversArchived | internal/api/archive.go:155-232 | each address still holding a live reservation or pledge gets exactly one notice, in the reservation wording if it holds a reservation; nobody else gets one |
| ItemStore.ItemStore.UnarchiveItem | internal/storage/sqlstore/items.go:230-297 | clears the mark and restarts both clocks of every live reservation |
| ItemStore.ItemStore.Update | internal/storage/sqlstore/items.go:175-198 | writes price and quantity and nothing else of the model; a quantity below one becomes one |
| ItemStore.ItemStore.UpdateItem | internal/api/items.go:152-192 | what the patch leaves out stays as it was read |
| ItemStore.ItemStore.PledgeWithinCapacity | internal/storage/sqlstore/contributions.go:90-131 | pledges exactly when the item is not reserved and the amount is left of the price read, with a new id and token; otherwise changes nothing: cross-track exactly when reserved, a storage error exactly when the SUM does not fit, over-capacity else |
| ItemStore.ItemStore.CreateContribution | internal/api/cobuying.go:88-131 | the contribute handler: the pledge if it fits, then the proposal exactly when the pending pledges cover the price |
| ItemStore.ItemStore.MaybeProposeMatch | internal/api/cobuying.go:144-194 | a match over all pending pledges, each with its own fresh token and expiry, exactly when there are at least two and their true sum reaches the price |
| ItemStore.ItemStore.ProposeMatch | internal/api/cobuying.go:164-191 | the match row, its members stamped, and a fresh token for each |
| ItemStore.ItemStore.PendingPledges | internal/api/cobuying.go:152-159 | the loop collects exactly the pending pledges and their int64 sum |
| ItemStore.ItemStore.CreateMatch | internal/storage/sqlstore/matches.go:16-57 | inserts the match and stamps exactly those of its members that are still stored, whatever their status |
| ItemStore.ItemStore.SetMatchActionToken | internal/storage/sqlstore/contributions.go:222-231 | sets the token and expiry of one row only |
| ItemStore.ItemStore.MintActionTokens | internal/api/cobuying.go:181-191 | one token per member, no two alike |
| ItemStore.ItemStore.DissolveMatch | internal/api/cobuying.go:521-549 | frees every present member but the excepted one, clears its token, declines the match |
| ItemStore.ItemStore.WithdrawContribution | internal/api/cobuying.go:245-278 | refuses exactly a member of a completed match, dissolves a proposed one, and deletes the pledge in every case but the refusal |
| ItemStore.ItemStore.ResolveMatchActor | internal/api/cobuying.go:381-421 | capability token first, then the match-action token until it expires; an actor only for its own match, unauthorized exactly when nobody holds the token |
| ItemStore.ItemStore.ConfirmMatch | internal/api/cobuying.go:282-352 | the confirm/decline handler: which refusal answers which actor and match; contacts are handed out only by the call that completes the match, and are its members' |
| ItemStore.ItemStore.RecordDecline | internal/api/cobuying.go:313-328 | a decline's whole effect |
| ItemStore.ItemStore.RecordConfirm | internal/api/cobuying.go:330-351 | a confirm's whole effect and what it reveals |
| ItemStore.ItemStore.ConfirmContribution | internal/storage/sqlstore/matches.go:168-237 | the locked confirm completes the match exactly when every linked pledge is then confirmed |
| ItemStore.ItemStore.ClearSpentTokens | internal/api/cobuying.go:341-348 | gathers the members' contacts and spends their tokens |
| ItemStore.ItemStore.GetMatch | internal/api/cobuying.go:431-475 | the contacts of all its members to an actor of a completed match, and none otherwise |
| ItemStore.ItemStore.ExpireMatch | internal/storage/sqlstore/matches.go:239-280 | expires a match and its pledges only while still proposed |
| ItemStore.ItemStore.SweepMatches | internal/cobuy/sweep.go:50-67 | expires exactly the proposed matches older than the window, each with its pledges |
| Decay.Sub | internal/decay/decay.go:105-117 | a saturating difference of instants still compares correctly with every representable window |
| Decay.DaysDurationExactIff | internal/decay/decay.go:84-84 | a positive period of days is the duration meant if and only if it is at most 106751 days |
| Decay.ChasedOnTimeIff | internal/decay/decay.go:112-119 | no active row is chased before its whole period has passed, if and only if the period is at most 106751 days |
| Decay.LongPeriodChasesAtOnce | internal/decay/decay.go:112-119 | with a period of 150000 days every active reservation is chased at once |
| Decay.SweepMovesOneEdge | internal/decay/decay.go:68-82 | a pass advances each reservation at most one edge of its lifecycle |
| Decay.SweepIdempotent | internal/decay/decay.go:68-157 | a second pass at the same instant changes nothing |
| Decay.DueIff | internal/decay/decay.go:112-175 | when a row is chased and when it expires, in instants, from the list's own setting or else the instance's |
| Decay.HoldReleasedIff | internal/decay/decay.go:90-110 | a pending hold is released, and its deadline shown, at the end of the list's own minutes or else the instance's window, and neither ever if that is not positive |
| Decay.MinutesExactIff | internal/settings/settings.go:32-39 | a list's minutes are the window meant if and only if that fits 64 bits |
| Decay.SweepOutcome | internal/decay/decay.go:70-160 | what a whole pass makes of each reservation in each state, from the stored columns and settings alone |
| Decay.DeadlineEnforcedIff | internal/api/reservations.go:351-357 | a pass releases a pending hold exactly when it runs at or after the deadline shown |
| Decay.Sweeper.Sweep | internal/decay/decay.go:70-85 | the candidate loop is the row-by-row pass, with new and distinct tokens in every reminder |
| Decay.Sweeper.Step | internal/decay/decay.go:86-157 | the step sends first and advances only on success, by the transition its state and clocks call for |
| Decay.Sweeper.TransitionState | internal/storage/sqlstore/decay.go:42-64 | single-winner transition |
| SweepHistory.NoSilentExpiry | internal/decay/decay.go:112-155 | a chased reservation expires only in a pass, after an accepted reminder whose tokens are the stored ones; the pass that sent it had read the row active, at the reminder's time and at least the decay period after the activity it read; the response window has passed since |
| SweepHistory.StoredClocksShowPeriodIff | internal/storage/sqlstore/decay.go:66-74 | the stored clocks of a chased row show the whole decay period if and only if its item was not un-archived since the reminder's pass read it |
| DecayRuns.OneReminderPerSpell | internal/storage/sqlstore/decay.go:113-119 | at most one accepted reminder in each active spell of a reservation |
| SweepHistory.ArchiveNeverChased | internal/storage/storage.go:300-310 | in every run, over the whole decay period before the read that a reminder is stamped with, the item was not archived |
| SweepHistory.ReminderCountsArchiveIff | internal/decay/decay.go:70-82 | up to the moment it goes out, a reminder counts archived time if and only if the item was archived between its pass's read and its step |
| StaleSweep.RemindsOfArchivedItem | internal/decay/decay.go:70-82 | a run that reminds the giver of an item archived after the pass's read |
| SweepHistory.ArchiveNeverExpires | internal/storage/sqlstore/decay.go:126-151 | in every run, over the whole response window before the expiring pass's read the item was not archived, except perhaps between the read and the step of the pass that sent the reminder |
| SweepHistory.ExpiryCountsArchiveIff | internal/decay/decay.go:145-154 | an expiry counts archived time if and only if the item was archived between its pass's read and its step, or past the state clock between the reminder's read and step; an un-archive since the reminder rules the latter out |
| StaleSweep.StaleReminderExpiresEarly | internal/storage/sqlstore/decay.go:66-74 | a run in which a late reminder sets the restarted state clock back, and the reservation expires although its item was archived within the response window |
| DecayRuns.HeldUntilDeadline | internal/api/reservations.go:340-357 | a hold neither confirmed nor released is still stored and pending at every instant before the deadline shown when it was made |
| DecayRuns.StepKeepsGood | internal/decay/decay.go:68-157 | the joint invariant of rows, reminders, spells and stale candidates survives every step |
| DecayRuns.RequestOutcome | internal/storage/sqlstore/decay.go:42-119 | what keeping, confirming, releasing, reserving, archiving and un-archiving do to a reservation and its item in the machine |
| DecayRuns.UninterruptedPass | internal/decay/decay.go:70-85 | a pass that nothing comes between is the row-by-row sweep of every reservation there is |
| Durations.HumanDurationMeaning | internal/api/reservations.go:359-382 | read back, the phrase is the window exactly when it is whole minutes, never overstates a window that is not negative, and is never a minute short |
| Durations.MailPromiseKept | internal/api/reservations.go:301-309 | the time the mail states runs out no later than the deadline, and no pass within it releases the hold |
| ConfirmRace.OneTokenIssued | internal/api/reservations.go:410-446 | of all racing confirms at most one returns a token, and its hash is the stored one from then on |
| ConfirmRace.UninterruptedClick | internal/api/reservations.go:389-446 | a click nothing comes between is answered from the row alone, with a token exactly for a hold still pending |
| ConfirmRace.NoTokenAfterExpiry | internal/storage/sqlstore/decay.go:85-94 | none returns a token if the expiry won |
| ConfirmRace.LeftPendingMeans | internal/storage/sqlstore/decay.go:42-64 | a hold leaves the pending state by expiry or by exactly one token being issued |
| ConfirmRace.LoserAnswered | internal/api/reservations.go:448-469 | a call that lost the race is told that the link is unknown exactly when the reservation is gone, and confirmed already exactly when it is active, by another call's confirm |
| ConfirmRace.WrongWindowPassedIff | internal/api/reservations.go:448-469 | a call that lost the race is told the window passed, though the sweep never expired the hold, if and only if the winner's row has left the active state since |
| ConfirmRace.LoserToldWindowPassed | internal/api/reservations.go:448-469 | a six-step run in which that happens to a live reservation, for every configuration and every instant at which the sweep reminds the giver of a hold confirmed before |
| ConfirmRace.LoserToldAfterADay | internal/api/reservations.go:448-469 | with a one-day period: the losing click was in flight for a day |
| ConfirmRace.LoserToldAtOnce | internal/api/reservations.go:448-469 | with a period that wraps: at the instant of the confirm |
| RateLimit.Limiter.constructor | internal/auth/ratelimit.go:45-59 | starts with an empty log |
| RateLimit.Limiter.Allow | internal/auth/ratelimit.go:61-73 | answers as a function of the whole event log: sweeping is invisible |
| RateLimit.Limiter.RecordFailure | internal/auth/ratelimit.go:75-90 | appends to the log; afterwards every tracked entry was opened less than two windows ago |
| RateLimit.Limiter.SweepLocked | internal/auth/ratelimit.go:92-105 | drops exactly the closed windows once a window has passed since the last sweep, and nothing before |
| RateLimit.Limiter.RecordSuccess | internal/auth/ratelimit.go:114-119 | appends to the log and clears the key |
| RateLimit.KeysApart | internal/api/passwordreset.go:83-93 | the reset keys differ from each other and from every login key |
| RateLimit.KeysTellApart | internal/api/passwordreset.go:83-93 | each address, and each identifier of a tenant or scope, has its own key |
| RateLimit.LockoutIff | internal/auth/ratelimit.go:61-90 | failures within the first one's window lock the key out if and only if they have reached the limit, until the window has passed |
| RateLimit.FewRecentPermitted | internal/auth/ratelimit.go:61-90 | a key with fewer failures than the limit within the last window is never locked out |
| RateLimit.SuccessClears | internal/auth/ratelimit.go:114-119 | a success clears its key |
| RateLimit.FewResetsAccepted | internal/api/passwordreset.go:95-108 | a reset request is accepted whenever its address and its identifier have each had fewer accepted requests than the limit within the last window |
| RateLimit.RequestReset | internal/api/passwordreset.go:60-66 | counts against both keys when both are under their limits and against neither otherwise; keeps every throttled key throttled |
| RateLimit.RecordLogin | internal/api/auth.go:130-151 | no login outcome affects a reset key |
| RateLimit.WindowFromTimes | internal/auth/ratelimit.go:75-90 | a key's window is determined by the times of its events alone: it is the one its last opener opened |
| RateLimit.ThrottleBound | internal/api/passwordreset.go:96-108 | any interval no longer than the window holds at most 2*maxFailures - 1 accepted requests of a key |
| RateLimit.ResetRequestsBounded | internal/api/passwordreset.go:42-72 | whatever resets and logins a new limiter serves, any interval no longer than the window holds at most 2*maxFailures - 1 accepted resets of one address, and of one identifier |
| RateLimit.ThrottleBoundIsSharp | internal/auth/ratelimit.go:61-90 | the bound is met by some throttled log |
| Domains.ContainsToken | internal/api/domains.go:164-171 | true exactly when some TXT text, trimmed, is the token |
| Domains.Registry.CreateReclaimingExpired | internal/storage/sqlstore/domains.go:69-132 | inserts in place of a stale unverified claim; a conflict changes nothing |
| Domains.Registry.AddDomain | internal/api/domains.go:50-96 | the cutoff is the time to live before now, or zero when there is none |
| Domains.Registry.DeleteDomain | internal/storage/sqlstore/domains.go:181-188 | removes only the tenant's own claim |
| Domains.Registry.Update | internal/storage/sqlstore/domains.go:167-179 | changes only the tenant's own claim, if it still exists |
| Domains.Registry.VerifyDomain | internal/api/domains.go:125-162 | verified afterwards exactly when it was, or the answer carries its token |
| Domains.ReachableClaims | internal/api/domains.go:125-162 | under any interleaving each hostname has at most one claim, and a verified claim was proved by an answer for its hostname carrying its own token, no older than the claim |
| Domains.AddTakesHostnameIff | internal/storage/sqlstore/domains.go:69-132 | a new claim takes the hostname if and only if whatever claims it is unverified and strictly past its time to live |
| Domains.DeleteTakesOwn | internal/storage/sqlstore/domains.go:181-188 | a tenant's delete takes its own claim away and no other |
| Domains.VerificationWorksIff | internal/api/domains.go:125-162 | a verification that nothing overtakes verifies the claim if and only if the answer holds its token, padding aside |
| Domains.StepOnClaim | internal/storage/sqlstore/domains.go:94-115 | no step changes a claim's owner, hostname, token or age or loses its verification; it goes only by its tenant's delete or, stale, by a new claim |
| Domains.ClaimStays | internal/api/domains.go:73-86 | a claim its tenant does not delete stays: for ever once verified, until its time to live otherwise, for ever if that is not positive |
| TicketGuard.Guard.Consume | internal/oauthlogin/ticketguard.go:39-55 | evicts exactly the expired jtis, then records or rejects |
| TicketGuard.Guard.Complete | internal/api/oauth.go:246-255 | accepts as a never-forgetting guard would unless the ticket expires between check and consumption; keeps only unexpired jtis after an acceptance in time |
| TicketGuard.AcceptedOnceIff | internal/api/oauth.go:246-255 | no ticket is accepted twice if and only if none accepted before expires between the two clock readings of a later presentation |
| TicketGuard.AcceptedOnce | internal/oauthlogin/ticketguard.go:39-55 | with both at one instant each jti is accepted at most once, exactly as by a set that never evicts |
| TicketGuard.ExpiryBetweenReadings | internal/api/oauth.go:246-255 | a concrete second acceptance when the two readings straddle the expiry |
| AccessTokens.TokenStore.Create | internal/storage/sqlstore/accesstokens.go:47-95 | the counting loop counts the active tokens; the token is inserted exactly when they are fewer than the cap |
| AccessTokens.TokenStore.Revoke | internal/storage/sqlstore/accesstokens.go:127-153 | revokes only the user's own token and never re-dates a revocation |
| AccessTokens.TokenStore.RevokeAllForUser | internal/storage/sqlstore/accesstokens.go:155-171 | afterwards the user has no active token at any instant |
| AccessTokens.TokenStore.TouchLastUsed | internal/storage/sqlstore/accesstokens.go:173-209 | writes exactly when unset or at least the interval older |
| AccessTokens.ActiveShrinks | internal/storage/types.go:212-219 | a token inactive at an instant is inactive at all later ones |
| AccessTokens.ActiveNeverExceedsCap | internal/storage/sqlstore/accesstokens.go:47-95 | a user never has more active tokens than the cap at any instant from the clock reading of their latest creation on, although readings need not come in lock order |
| AccessTokens.CapOnlyFromLatestCreation | internal/storage/sqlstore/accesstokens.go:65-84 | before that reading the cap can be passed: a concrete run |
| AccessTokens.LastUsedRises | internal/storage/sqlstore/accesstokens.go:173-209 | whatever touches interleave, each stored last-used time is at least the interval after the one before |
| AccessTokens.TouchWritesIff | internal/storage/sqlstore/accesstokens.go:173-209 | a touch that nothing overtakes writes if and only if the token was never used or not within the interval |
| AccessTokens.TokenLifetime | internal/storage/types.go:212-219 | a token works from its creation until exactly its expiry, or for ever, as long as its user revokes neither it nor all of them |
| AccessTokens.RevocationEnds | internal/storage/sqlstore/accesstokens.go:127-171 | a revocation ends exactly the tokens it names, at every instant |
| AccessTokens.NeverActiveAgain | internal/storage/types.go:212-219 | a revoked or expired token never works again, and its revocation time never changes |
| Text.TrimSpace | internal/api/domains.go:164-171 | nothing is left to trim, and nothing is left at all exactly for blank text |
| Text.TrimPadded | internal/api/domains.go:164-171 | trimming gives back exactly the text that was padded |
| Text.FormatNat | internal/api/export.go:192-203 | digits without a leading zero whose value is the number |
| Text.ParseInt | internal/api/import.go:186-192 | only values that fit 64 bits are accepted |
| Text.ParseFormat | internal/api/import.go:186-206 | every int64, the smallest included, survives being written and read; other integers are refused |
| Text.ParseBool | internal/api/import.go:207-213 | the spellings of true and false that are accepted, and no others |
| Catalogue.WriteExportCSV | internal/api/export.go:160-179 | the loop writes the header and one row per item |
| Catalogue.ParseImportCSV | internal/api/import.go:145-166 | the loop reads every row or reports the first problem |
| Catalogue.RowRoundTrip | internal/api/import.go:168-215 | parsing a printed row gives the item with empty optional texts made absent |
| Catalogue.RowRoundTripExactIff | internal/api/export.go:181-205 | exact if and only if the item has no empty optional text; a second trip is the identity |
| Catalogue.AcceptedRowSettles | internal/api/import.go:168-215 | any accepted row, however spelt, reads the same once written again |
| Catalogue.RowReadIff | internal/api/import.go:168-215 | exactly which rows are read, and as what: an empty number is zero, any other empty cell an absent value |
| Catalogue.CreatedUnits | internal/api/import.go:236-246 | an item is created with at least one unit, and otherwise as it was written |
| Catalogue.TableRoundTrip | internal/api/import.go:145-166 | a whole exported table reads back item by item |
| Catalogue.ValidateImportItem | internal/api/import.go:217-248 | accepts exactly a non-blank name, priority at least zero, and price absent or positive with a currency; keeps every catalogue field |
| Catalogue.ImportItems | internal/api/import.go:92-119 | all or nothing: creates every item or names every invalid row once, in order, with its first problem |
| Catalogue.ImportFile | internal/api/import.go:69-119 | refuses a file above 1 MiB unread, then records that make no table, then as for the items; creates exactly when none of these applies |
| Catalogue.NewlinesSameIff | internal/api/import.go:145-150 | a CSV reader gives a text back exactly as it was if and only if no carriage return in it stands before a newline |
| Catalogue.ExportThenImport | internal/api/export.go:55-73 | an exported item is accepted again exactly when importable, with the same catalogue |
| Catalogue.CopyExactIff | internal/api/export.go:181-205 | the copy is the item itself if and only if no text of it holds a carriage return before a newline and no optional text is empty |
| Catalogue.ExportHolds | internal/api/export.go:126-134 | an export holds the first 2000 items of the list, in order |
| Catalogue.CopyList | internal/api/export.go:126-134 | an exported list is created again, item by item, if and only if it has at most 500 items, each is importable, and the file has at most 1 MiB |
| Catalogue.LongListNotCopied | internal/api/import.go:92-96 | 501 importable items whose export no list takes back |
| Catalogue.LongNoteNotCopied | internal/api/import.go:17-19 | one importable item whose export no list takes back, its note being longer than the size limit |

## Left out

- LedgerRuns.ReachableSingleMatch: for runs in which what is let in fits 64 bits; so too `ReachableExactFunding`, `RaceExactFunding` and `RaceSingleMatchIff`.
- ProposalRace.RaceExactFunding: for runs in which every create finds what it listed still pending; so too `RaceSingleMatchIff`.
- RaceConsent.RaceDisclosureNeedsEveryConsent: the condition is sufficient only, since a stale create need not touch a match that is read out; `CompletedByAllIff` is exact for the completing confirm alone.
- Consent.CompletesOnce: over the runs of `LedgerRuns`, where a proposal's list and create are one step; so too `CompletedByAConfirm` and `ReachableTokensPersonal`.
- DecayRuns.OneReminderPerSpell: one sweeper at a time; several could each send before one of them advances the row.
- RateLimit.ThrottleBound: with the allow-check and the record of one request as one step.
- ItemStore.ItemStore.ConfirmReservation: the handler uninterrupted; `ConfirmRace` has it interleaved.
- Domains.Registry.VerifyDomain: the handler uninterrupted; the runs in `Domains` split it in get, lookup and update.
- Requests interleaved inside a decline or a withdrawal, between the storage calls of one handler, or between the create of a match and the tokens of its members.
- Checks before the modelled part of a handler: request bodies other than the import's size, list and item lookup, an inactive list, an archived item, the co-buying opt-out, currencies, captcha, owner roles.
- The account-bound handlers beyond the row they create: listing and deleting one's own reservations.
- List settings, currencies and list activity changing during a run; deletion of lists and items.
- HTTP, the generated API code, response bodies, JSON import and export, the quoting and byte encoding of CSV (a file is its records and its size), SQL text and database failures other than a SUM that does not fit.
- Cryptography, mail delivery, OIDC, DNS, link previews; the proof-of-work replay store, whose expiry check is not part of this model.
- Thank-you notes, and the wording of mails other than the confirm window.
- Domain columns for the CNAME target and TLS status, and hostname normalisation.
