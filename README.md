# Freight marketplace negotiation core, in Dafny

This project models the in-memory core of a freight marketplace web app.
Carriers and shippers list offers: cargo loads, vehicle capacity, warehouse
space and services. A buyer opens a negotiation on an available offer and
exchanges counter-offers, some of them written by an AI rate advisor. An
accepted offer is booked and handed to a team space with messages, files,
invites and a final sign-off.

The model covers these parts:

- **Services** (`marketplace_service.dfy`, `team_service.dfy`):
  - The offer catalogue is one `OfferStore` object. The negotiation ledger
    (`NegotiationEngine`) and the team store (`TeamEngine`) both write to it.
  - `createNegotiation`, `addCounterOffer`, `concludeNegotiation`,
    `createTeamCollaboration`, `addTeamMessage`, `uploadTeamFile`,
    `finalizeTeam` and `sendTeamInvites` are methods. Each states its error
    cases and its whole new state.
  - The getters and the AI rate advisor (`getAISuggestedRate`) are
    functions.
- **UI handlers**, as state machines and validators:
  - the negotiation chat with its clamped AI auto-reply
    (`negotiation_chat.dfy`);
  - the target/maximum rate form shared by the offer card and the offer
    details page (`rate_form.dfy`, `offer_card.dfy`, `offer_details.dfy`);
  - the five-step escrow payment wizard (`escrow_payment_ui.dfy`);
  - the marketplace filter panel (`marketplace_filters.dfy`);
  - the offer-selection rule of the marketplace page
    (`marketplace_page.dfy`);
  - the team invite form with its comma-separated address parser
    (`invite_modal.dfy`).
- **Shared pieces**:
  - `types.dfy` holds the records and enums;
  - `wrappers.dfy` holds `Option` and `Result`;
  - `seqs.dfy` holds `find`/`filter` on sequences;
  - `strings.dfy` holds the digit-stripping `parseInt`, `toString`,
    `trim`, `split` and `join`.
- **Whole runs** (`scenarios.dfy`): open, counter, accept and book an
  offer; act on a concluded negotiation; finalize a team twice.

Modelling choices:

- **Ids:** every `Date.now()`-based id is a fresh number drawn from a
  counter (`nextId`) in each engine.
- **Time:** timestamps are a `now: Time` parameter.
- **Randomness:**
  - `Math.random()` in the cargo discount is a `draw` parameter in [0, 1).
  - The random transaction-id suffix of the escrow wizard is a string
    parameter.
- **Prices** are whole numbers. `Math.round` is `Floor(x + 1/2)` on exact
  reals.
- **Service calls:** each call is one atomic step.
- **UI state and callbacks:**
  - Component state becomes class fields, or a value threaded through
    functions.
  - A callback prop becomes an outcome parameter (`hasHandler`,
    `handlerThrows`, `inviteFails`) or a recorded call (`emitted`, `sent`).
  - A timer becomes an explicit event (`FireAiReply`, `FireTimer`,
    `TimerFires`).

Where the design description and the code disagree, the model follows the
code:

- `concludeNegotiation` has no status guard. A concluded negotiation can be
  concluded again, and rejecting an accepted one puts the booked offer back
  on the market (`Scenarios.ConcludedNegotiation`).
- `addTeamMessage` and `uploadTeamFile` check only that the team exists. A
  finalized team still takes messages and files.
- The advisor's fallback branch for an unknown offer type cannot be
  reached, because the offer type is a closed enumeration of four.

## Model

| member | source | states |
|---|---|---|
| MarketplaceService.Round | src/services/marketplaceService.ts:256 | `Math.round` lands within half a unit of its argument, halves rounding up |
| MarketplaceService.RoundMonotone | src/services/marketplaceService.ts:256 | rounding never reverses the order of two values |
| MarketplaceService.RoundInteger | src/services/marketplaceService.ts:256 | rounding a whole number gives it back |
| MarketplaceService.RandomInt | src/services/marketplaceService.ts:27-29 | `getRandomInt(min, max)` lies in [min, max] for every `Math.random()` value |
| MarketplaceService.RandomIntCovers | src/services/marketplaceService.ts:27-29 | every value in [min, max] is produced by some `Math.random()` value |
| MarketplaceService.GetOfferById | src/services/marketplaceService.ts:64-68 | the result is a stored offer with the requested id; null exactly when no offer has that id |
| MarketplaceService.OffersByType | src/services/marketplaceService.ts:43-57 | the per-type list holds exactly the catalogue's offers of that type |
| MarketplaceService.TypeListsPartition | src/services/marketplaceService.ts:43-57 | the four per-type lists together are as long as the catalogue |
| MarketplaceService.WithPrice | src/services/marketplaceService.ts:198-202 | the linked offer, if present, takes the rate as its price and the new time; every other offer is unchanged |
| MarketplaceService.WithStatus | src/services/marketplaceService.ts:223-227 | the linked offer, if present, takes the new status and time; every other offer is unchanged |
| MarketplaceService.NegotiationEngine.CreateNegotiation | src/services/marketplaceService.ts:123-162 | fails with not-found or not-available before any write; succeeds exactly for an available offer; then only that offer becomes negotiating, and a new active negotiation is appended with initial rate = the offer's price, current rate = target, and one opening counter-offer at the target rate, not from the AI; the ledger stays coherent |
| MarketplaceService.NegotiationEngine.AddCounterOffer | src/services/marketplaceService.ts:173-204 | fails for an unknown or non-active negotiation without writing; otherwise appends exactly one counter-offer with the given rate, message and AI flag, sets the current rate to it, and mirrors the rate into the linked offer's price |
| MarketplaceService.NegotiationEngine.ConcludeNegotiation | src/services/marketplaceService.ts:213-229 | fails only for an unknown id; otherwise sets the outcome with no active-status guard, and sets the offer to booked exactly when accepted, and otherwise to available |
| MarketplaceService.GetNegotiationById | src/services/marketplaceService.ts:102-106 | the result is a stored negotiation with the id; null exactly when none has it |
| MarketplaceService.InsertByUpdated | src/services/marketplaceService.ts:97-99 | insertion adds exactly the one negotiation (as a multiset) |
| MarketplaceService.InsertKeepsNewestFirst | src/services/marketplaceService.ts:97-99 | inserting into a newest-first list keeps it newest-first |
| MarketplaceService.GetNegotiations | src/services/marketplaceService.ts:95-100 | the result is a permutation of the ledger, ordered by `updatedAt`, most recent first |
| MarketplaceService.Advice | src/services/marketplaceService.ts:245-303 | the advisor's type switch applies a discount within its type's range to the current price, with its type's confidence |
| MarketplaceService.AISuggestedRate | src/services/marketplaceService.ts:240-303 | fails exactly for an unknown offer; otherwise the rate is the price less a discount from the type's range (cargo 5 to 12%, vehicle 8%, warehouse 15%, service 10%), rounded, with high/medium/high/low confidence |
| MarketplaceService.PercentOff | src/services/marketplaceService.ts:269 | multiplying by 0.92 (and likewise 0.85, 0.90 or 1 − d/100) gives, rounded, the price less that percentage |
| MarketplaceService.DiscountedMonotone | src/services/marketplaceService.ts:255-256 | a larger discount never gives a higher rate on a non-negative price |
| MarketplaceService.SuggestionIsDiscount | src/services/marketplaceService.ts:250-303 | every suggestion for a non-negative price lies between the price less 15% and the price less 5%, so never above the price; a cargo suggestion lies between the price less 12% and less 5% |
| TeamService.FreshTeamFound | src/services/teamService.ts:62 | a team appended with an id above all stored ids is found by that id |
| TeamService.FinalizerName | src/services/teamService.ts:216 | the name in the finalization message is the participant's name when found and non-empty, and "a participant" otherwise; never empty |
| TeamService.GetTeamById | src/services/teamService.ts:70-77 | a stored team with the id; null exactly when none has it |
| TeamService.GetTeamByOfferId | src/services/teamService.ts:82-89 | a stored team on the offer; null exactly when none is on it |
| TeamService.GetUserTeams | src/services/teamService.ts:172-180 | exactly the stored teams in which some participant has the user id |
| TeamService.TeamEngine.constructor | src/services/teamService.ts:6-8 | the team, message and file stores start empty |
| TeamService.TeamEngine.CreateTeamCollaboration | src/services/teamService.ts:13-65 | a new active team: the offer's owner as carrier first, then the buyer with the given role; no files; the welcome message as its only message, also appended to the global log |
| TeamService.TeamEngine.AddTeamMessage | src/services/teamService.ts:94-124 | fails only for an unknown team, without writing, and a finalized team is accepted; otherwise appends exactly one message with the given user and content to the team and the global log |
| TeamService.TeamEngine.UploadTeamFile | src/services/teamService.ts:129-167 | fails only for an unknown team; otherwise appends exactly one file, uploaded by the caller, whose URL is derived from its fresh id |
| TeamService.TeamEngine.FinalizeTeam | src/services/teamService.ts:185-231 | fails for an unknown team and for any team that is not active, without writing; otherwise sets finalized with time, finalizer and reason, appends one system message naming the finalizer, and marks the linked offer finalized; every team stays well formed |
| TeamService.TeamEngine.SendTeamInvites | src/services/teamService.ts:236-285 | fails for an unknown team or an inviter who is not a participant; otherwise appends exactly one summary message for the batch, whatever its size, and returns success with the list unchanged |
| NegotiationChat.CheckSubmission | src/components/negotiation/NegotiationChat.tsx:50-56 | ignored exactly when a field is empty or a submission runs; otherwise rejected exactly when the digits left after deleting non-digits are none or read 0; a passed rate is positive and is what the parse read |
| NegotiationChat.SeparatorIgnored | src/components/negotiation/NegotiationChat.tsx:52 | inserting a non-digit (a comma, a decimal point) into the rate field never changes the outcome |
| NegotiationChat.RenderedRateAccepted | src/components/negotiation/NegotiationChat.tsx:147 | a positive suggested rate written into the field by `toString` passes the check unchanged |
| NegotiationChat.Clamp | src/components/negotiation/NegotiationChat.tsx:76-79 | the AI reply never exceeds the maximum, is at least the target whenever target ≤ maximum, and is the suggestion itself when that lies in the band |
| NegotiationChat.InvertedBandGivesMax | src/components/negotiation/NegotiationChat.tsx:76-79 | with maximum below target, the reply is the maximum |
| NegotiationChat.NegotiationChat.constructor | src/components/negotiation/NegotiationChat.tsx:22-35 | empty fields, no submission running, the negotiation's AI switch and band |
| NegotiationChat.NegotiationChat.CounterOfferInputShown | src/components/negotiation/NegotiationChat.tsx:291 | with the local copy in step with the ledger, the form is shown exactly when the ledger holds the negotiation as active, which is exactly when `SubmitCounterOffer` succeeds rather than alerting |
| NegotiationChat.NegotiationChat.HandleSubmit | src/components/negotiation/NegotiationChat.tsx:47-97 | an ignored or invalid form calls no service; a valid one records a counter-offer that is not from the AI in the ledger, mirrors its rate into the offer's price, takes one fresh id, clears both fields and schedules one AI reply exactly when AI is on; a refused call alerts and changes nothing; on success the local copy is the ledger entry |
| NegotiationChat.NegotiationChat.SubmitCounterOffer | src/components/negotiation/NegotiationChat.tsx:58-96 | the service call after validation succeeds exactly when the ledger holds the negotiation as active; then the whole engine state (ledger entry, offer price, next id), the form reset and the scheduled reply are given, and otherwise the alert with nothing changed |
| NegotiationChat.NegotiationChat.FireAiReply | src/components/negotiation/NegotiationChat.tsx:74-89 | the scheduled reply records the advisor's suggestion, clamped into the band, marked as from the AI, with the advisor's reasoning as message, mirrors that rate into the offer's price and takes one fresh id; it changes nothing if the offer is unknown or the negotiation no longer active |
| NegotiationChat.NegotiationChat.Conclude | src/components/negotiation/NegotiationChat.tsx:104-138 | unless a submission runs, concludes the ledger entry with the given outcome and propagates it to the offer alone, leaving the form fields and the next id alone; an unknown negotiation alerts and changes nothing |
| NegotiationChat.NegotiationChat.HandleAcceptOffer | src/components/negotiation/NegotiationChat.tsx:104-120 | unless a submission runs, the ledger entry becomes `accepted` with the new time, only the linked offer becomes booked, the local copy is that entry, the form is untouched; an unknown negotiation shows the accept alert and changes nothing |
| NegotiationChat.NegotiationChat.HandleRejectOffer | src/components/negotiation/NegotiationChat.tsx:122-138 | unless a submission runs, the ledger entry becomes `rejected` with the new time, only the linked offer becomes available again, the local copy is that entry, the form is untouched; an unknown negotiation shows the reject alert and changes nothing |
| NegotiationChat.NegotiationChat.ToggleAIControl | src/components/negotiation/NegotiationChat.tsx:99-102 | flips only the local switch |
| NegotiationChat.NegotiationChat.FetchAiSuggestion | src/components/negotiation/NegotiationChat.tsx:140-154 | shows the suggestion and writes its rate into the rate field; alerts and keeps the field for an unknown offer |
| RateForm.ValidateRates | src/components/marketplace/OfferCard.tsx:25-41 | succeeds exactly when both fields read as positive numbers once non-digits are deleted and maximum ≥ target; the first failing check picks the alert |
| RateForm.DefaultRatesAreDiscounts | src/components/marketplace/OfferCard.tsx:16-17 | the default fields are the price less 10% and less 5%, rounded |
| RateForm.DiscountsOrdered | src/components/marketplace/OfferCard.tsx:16-17 | for a positive price, 0 < price less 10% ≤ price less 5% ≤ price |
| RateForm.DefaultRatesValidate | src/components/marketplace/OfferCard.tsx:16-43 | an untouched form for a positive price passes validation with those two values |
| RateForm.ZeroPriceDefaultsRejected | src/components/marketplace/OfferCard.tsx:16-31 | for a zero price the defaults read "0" and the target check rejects them |
| OfferCard.Submit | src/components/marketplace/OfferCard.tsx:21-44 | a no-op without a handler or while loading; otherwise the validation alert, or the handler called with parsed values 0 < target ≤ maximum and the AI switch |
| OfferCard.UntouchedFormStarts | src/components/marketplace/OfferCard.tsx:16-43 | submitting the untouched card starts an AI-assisted negotiation at the price less 10%, capped at the price less 5% |
| OfferDetails.ActionsOnlyWhenNegotiable | src/components/marketplace/OfferDetails.tsx:602 | the actions section is shown exactly when the service would open a negotiation on the offer |
| OfferDetails.OfferDetailsForm.constructor | src/components/marketplace/OfferDetails.tsx:51-54 | the default rates, AI checked, nothing submitting |
| OfferDetails.OfferDetailsForm.HandleSubmit | src/components/marketplace/OfferDetails.tsx:58-92 | ignored while submitting; the validation alert with no call; otherwise the handler, if given, called with the parsed values inside the guard, and a failure alert if it throws; the guard is down afterwards in every case |
| EscrowPaymentUI.NextStep | src/components/escrow/EscrowPaymentUI.tsx:67-97 | method selection without a method, or terms without agreement, stays put with its error; otherwise the error is cleared and the step advances by exactly one; leaving payment details starts processing and the timer |
| EscrowPaymentUI.CompleteProcessing | src/components/escrow/EscrowPaymentUI.tsx:84-90 | the timer stops processing, records "TX-" plus the suffix, and jumps to completion |
| EscrowPaymentUI.Press | src/components/escrow/EscrowPaymentUI.tsx:489-501 | no event on the rendered page notifies the parent, since only Continue on the completion step would and the button is not rendered there |
| EscrowPaymentUI.InitialReachable | src/components/escrow/EscrowPaymentUI.tsx:56-61 | the initial state satisfies the wizard invariant |
| EscrowPaymentUI.PressPreservesReachable | src/components/escrow/EscrowPaymentUI.tsx:67-97 | every event keeps the invariant (step in 0..4, processing exactly on confirmation with one pending timer, a method past step 0, agreement past step 1, a transaction id at completion) and never notifies |
| EscrowPaymentUI.RunNeverNotifies | src/components/escrow/EscrowPaymentUI.tsx:93-96 | no session starting from a reachable state ever calls `onPaymentComplete` |
| EscrowPaymentUI.HappyPathCompletes | src/components/escrow/EscrowPaymentUI.tsx:67-97 | choose, Continue, agree, Continue, Continue, timer: completion with the transaction id and the chosen method |
| EscrowPaymentUI.NoMethodNoProgress | src/components/escrow/EscrowPaymentUI.tsx:68-71 | any number of Continue presses without a method stays on method selection with the error |
| EscrowPaymentUI.EscrowWizard.constructor | src/components/escrow/EscrowPaymentUI.tsx:56-61 | the fields start in the initial wizard state |
| EscrowPaymentUI.EscrowWizard.HandleMethodSelect | src/components/escrow/EscrowPaymentUI.tsx:63-65 | selects the method; nothing else changes |
| EscrowPaymentUI.EscrowWizard.SetAgreedToTerms | src/components/escrow/EscrowPaymentUI.tsx:173 | sets the agreement flag; nothing else changes |
| EscrowPaymentUI.EscrowWizard.HandleNextStep | src/components/escrow/EscrowPaymentUI.tsx:67-97 | the fields end in `NextStep`'s state, with its timer and notification |
| EscrowPaymentUI.EscrowWizard.FireTimer | src/components/escrow/EscrowPaymentUI.tsx:84-90 | the fields end in `CompleteProcessing`'s state |
| EscrowPaymentUI.EscrowWizard.CanContinue | src/components/escrow/EscrowPaymentUI.tsx:489-501 | the class's button check is the rendered-page condition `ContinueEnabled` on its state, and a press it allows never reaches `onPaymentComplete` |
| MarketplaceFilters.Ids | src/components/marketplace/MarketplaceFilters.tsx:63 | Select All lists every marketplace id in input order |
| MarketplaceFilters.BadgeCount | src/components/marketplace/MarketplaceFilters.tsx:151-160 | the badge is zero, and the clear button hidden, exactly when all three selections are empty |
| MarketplaceFilters.ToggleMarketplaceCounts | src/components/marketplace/MarketplaceFilters.tsx:47-57 | the toggle removes one copy of a selected id or adds one copy of an unselected id |
| MarketplaceFilters.ToggleMarketplaceFlips | src/components/marketplace/MarketplaceFilters.tsx:47-57 | on a repeat-free selection the toggled id flips, all others keep their membership, and the selection stays repeat-free |
| MarketplaceFilters.ToggleMarketplaceTwice | src/components/marketplace/MarketplaceFilters.tsx:47-57 | toggling an unselected marketplace twice restores the selection |
| MarketplaceFilters.ToggleOptionFlips | src/components/marketplace/MarketplaceFilters.tsx:71-73 | the status/equipment toggle flips the id (removing every copy), other ids unchanged |
| MarketplaceFilters.ToggleOptionTwice | src/components/marketplace/MarketplaceFilters.tsx:71-73 | toggling an unselected option twice restores the selection |
| MarketplaceFilters.TogglesAgree | src/components/marketplace/MarketplaceFilters.tsx:70-87 | on a repeat-free selection the splice toggle and the filter toggle give the same list |
| MarketplaceFilters.FilterPanel.constructor | src/components/marketplace/MarketplaceFilters.tsx:14-22 | empty search, status and equipment, filters hidden, nothing emitted |
| MarketplaceFilters.FilterPanel.Receive | src/components/marketplace/MarketplaceFilters.tsx:16 | a new selection from the page replaces the prop only |
| MarketplaceFilters.FilterPanel.HandleSearch | src/components/marketplace/MarketplaceFilters.tsx:37-45 | keeps the text and emits only the unchanged marketplace selection |
| MarketplaceFilters.FilterPanel.HandleMarketplaceToggle | src/components/marketplace/MarketplaceFilters.tsx:47-60 | emits the toggled copy; the incoming selection is not changed |
| MarketplaceFilters.FilterPanel.HandleSelectAll | src/components/marketplace/MarketplaceFilters.tsx:62-64 | emits every marketplace id |
| MarketplaceFilters.FilterPanel.HandleSelectNone | src/components/marketplace/MarketplaceFilters.tsx:66-68 | emits the empty list |
| MarketplaceFilters.FilterPanel.ToggleStatus | src/components/marketplace/MarketplaceFilters.tsx:70-82 | toggles the panel's status list; the page hears only the unchanged marketplace list |
| MarketplaceFilters.FilterPanel.ToggleEquipment | src/components/marketplace/MarketplaceFilters.tsx:84-96 | toggles the panel's equipment list; the page hears only the unchanged marketplace list |
| MarketplaceFilters.FilterPanel.UpdateFilters | src/components/marketplace/MarketplaceFilters.tsx:98-105 | only the marketplace list is forwarded |
| MarketplaceFilters.FilterPanel.ClearFilters | src/components/marketplace/MarketplaceFilters.tsx:107-118 | empties search, status and equipment, and emits the empty list twice |
| MarketplaceFilters.FilterPanel.ToggleShowFilters | src/components/marketplace/MarketplaceFilters.tsx:143 | flips only the visibility of the filters |
| MarketplacePage.Visible | src/app/marketplace/page.tsx:56-87 | the listed offers come from the catalogue; they have a selected type when one to three types are selected, and a selected marketplace when some but fewer than all marketplaces are selected; every offer passing both conditions is listed |
| MarketplacePage.NoneOrAllShowsEveryMarketplace | src/app/marketplace/page.tsx:72-76 | selecting no marketplace or all of them (by count) lists the same offers as selecting none |
| MarketplacePage.UnfilteredShowsCatalogue | src/app/marketplace/page.tsx:61-76 | with no effective type or marketplace filter the whole catalogue is listed |
| MarketplacePage.SingleTypeShowsTypeList | src/app/marketplace/page.tsx:62-63 | one selected type, with every marketplace, lists exactly that type's store |
| MarketplacePage.InitialLoadAgrees | src/app/marketplace/page.tsx:31-54 | the first cargo load and the refetch after all marketplaces are selected list the same offers |
| MarketplacePage.Page.constructor | src/app/marketplace/page.tsx:24-29 | no offers or marketplaces, type selection `['cargo']`, loading |
| MarketplacePage.Page.FetchInitialData | src/app/marketplace/page.tsx:31-54 | stores the marketplaces, selects all their ids, and lists the cargo offers |
| MarketplacePage.Page.FetchOffers | src/app/marketplace/page.tsx:56-87 | the step-by-step fetching and filtering ends with exactly `Visible` of the current selections |
| MarketplacePage.Page.HandleMarketplaceFilterChange | src/app/marketplace/page.tsx:89-91 | replaces the marketplace selection and lists `Visible` for it |
| MarketplacePage.Page.HandleTypeChange | src/app/marketplace/page.tsx:93-95 | the type selection becomes the chosen type alone, and its offers are listed |
| InviteModal.ParseEmailsClean | src/components/teams/InviteModal.tsx:29-32 | every parsed address is non-empty, trimmed and comma-free, and every piece that is not blank once trimmed is among them |
| InviteModal.ParseEmailsAppend | src/components/teams/InviteModal.tsx:29-32 | parsing text joined by a comma parses each side in order: typing order is kept |
| InviteModal.ParseJoinRoundTrip | src/components/teams/InviteModal.tsx:29-32 | writing clean addresses out with commas and parsing gives the list back |
| InviteModal.EmptyTextParsesEmpty | src/components/teams/InviteModal.tsx:29-32 | the empty field parses to no address |
| InviteModal.BlankTextParsesEmpty | src/components/teams/InviteModal.tsx:27-34 | text that trims to nothing parses to no address, so the trim guard never rejects a sendable list |
| InviteModal.CommaOnlyParsesEmpty | src/components/teams/InviteModal.tsx:27-34 | a lone comma passes the trim guard but parses to nothing, so the empty-list guard is needed |
| InviteModal.Submission | src/components/teams/InviteModal.tsx:27-34 | an address list is sent exactly when no submission runs and the parse is non-empty, and then it is the parse, all clean |
| InviteModal.InviteForm.constructor | src/components/teams/InviteModal.tsx:17-20 | no addresses, role carrier, the default invitation text |
| InviteModal.InviteForm.SetEmails | src/components/teams/InviteModal.tsx:105 | sets the address text only |
| InviteModal.InviteForm.SetRole | src/components/teams/InviteModal.tsx:122 | sets the role only |
| InviteModal.InviteForm.SetMessage | src/components/teams/InviteModal.tsx:143 | sets the message only |
| InviteModal.InviteForm.HandleSubmit | src/components/teams/InviteModal.tsx:24-50 | nothing is sent when `Submission` says so; otherwise `onInvite` gets the parsed list, role and message; success clears the addresses, resets the message and closes; failure alerts and keeps the form; the guard is down afterwards |
| Strings.ParseDigits | src/components/negotiation/NegotiationChat.tsx:52 | `parseInt(s.replace(/\D/g, ""))` is NaN exactly when s has no digit, and reads an all-digit string as its value |
| Strings.ParseIgnoresNonDigit | src/components/negotiation/NegotiationChat.tsx:52 | a non-digit anywhere in the text is ignored by the parse |
| Strings.ParseRendered | src/components/negotiation/NegotiationChat.tsx:147 | a number written out by `toString` parses back to its absolute value |
| Strings.JoinSplit | src/components/teams/InviteModal.tsx:30 | joining the pieces of `split` with the separator gives the text back |
| Strings.SplitJoin | src/components/teams/InviteModal.tsx:30 | splitting separator-free pieces joined by the separator gives the pieces back |
| Strings.SplitAppend | src/components/teams/InviteModal.tsx:30 | splitting around a separator splits each side |
| Strings.TrimKeepsChars | src/components/teams/InviteModal.tsx:31 | `trim` only removes characters |
| Scenarios.NegotiateAndBook | src/services/marketplaceService.ts:123-229 | open at 900 on a 1000 offer, counter 920, accept: the offer is booked at 920, and a second negotiation on it is refused as not available |
| Scenarios.ConcludedNegotiation | src/services/marketplaceService.ts:173-229 | after acceptance a late counter-offer is refused, but a second conclusion (rejected) succeeds and makes the offer available again |
| Scenarios.FinalizeTwice | src/services/teamService.ts:185-231 | the first finalization succeeds and sets the offer finalized; the second fails because the team is no longer active |

## Left out

- JSX rendering, styling and routing are not modelled; only the visibility conditions that gate a handler are (the counter-offer form, the offer actions, the Continue button, the clear-filters badge).
- Simulated latency (`delay`) and the async interleaving of handlers are not modelled: each service call and each handler is one atomic step. So a race between an AI reply timer and a conclusion is not modelled, and neither is a second submit while an awaited call is pending. The `isSubmitting` guards are kept, but no modelled step leaves them raised.
- `Date.now()` ids and ISO timestamps are replaced by a counter and a `now` parameter. The source derives the opening counter-offer's `negotiationId` from a second `Date.now()` call, so it can differ from the negotiation's id; the model uses the negotiation's id for both.
- Object aliasing from the `{...x}` shallow copies is not modelled: a returned negotiation or team is a value snapshot, not an object that shares arrays with the store.
- Seed fixtures of the mock data are not modelled; engines and stores take their initial contents as constructor arguments.
- Numbers are exact: prices are whole numbers and `Math.round` works on exact reals, with no IEEE rounding error and no safe-integer limit. This applies to:
  - MarketplaceService.Round: models `Math.round` on exact reals, not on doubles.
  - Strings.ParseDigits: reads an unbounded digit string exactly, where `parseInt` loses precision above 2^53.
- MarketplaceService.Reasoning: the cargo explanation prints the whole discount percentage, where the source prints `discount * 100` as a float (which can read 7.000000000000001). The rate per mile uses an exact two-decimal rounding, not `toFixed`.
- The advisor's default branch (5% discount, medium confidence) is unreachable with the four offer types and is not modelled.
- The random parts of the ids are parameters:
  - the escrow transaction id is "TX-" followed by a free suffix, not constrained to eight base-36 capitals;
  - the cargo discount comes from a `draw` parameter in [0, 1).
- MarketplaceService.GetNegotiations: promises a newest-first permutation. It does not state which of two equally recent negotiations comes first.
- `getOffersByMarketplace`, `getNegotiationByOfferId`, the per-type `get…OfferById` getters and `getAnalyticsData` are not modelled; they are outside the modelled core.
- Not modelled because they are console output:
  - `console.log` in `sendTeamInvites`;
  - every `console.error`.
- `acceptOffer` and `handleDirectAccept` in the offer details page are not modelled, because `acceptOffer` is not defined in the services shown.
- `handlePaymentComplete`, and the `showNegotiationForm`/`showPaymentUI` switches of the offer details page, are not modelled. The first builds an unused local object and calls a prop; the switches only choose what is rendered.
- The escrow fee display, the savings percentage and `getConfidenceColor` are not modelled; they are display-only formatting.
- The escrow Cancel button (`onCancel`) and the invite modal's close and `isOpen` rendering are not modelled; they are parent callbacks without state in the component.
- `handleStartNegotiation` on the marketplace page is not modelled beyond the `createNegotiation` call it makes. Its navigation and alert are routing and UI output, and its `isStartingNegotiation` flag is not read by the modelled logic.
- The page's two mount effects are not interleaved: `FetchInitialData` runs as one step. `InitialLoadAgrees` shows that the mount-time `fetchOffers` and the refetch after all marketplaces are selected list the same offers.
- The team invites tab, the finalize-team modal and the one-line status filters of the negotiations and teams pages are not modelled; they are fixture-only or trivial render code.
- Strings are sequences of characters, with no UTF-16 surrogate handling. Whitespace for `trim` is the ECMAScript set of white-space and line-terminator characters.
