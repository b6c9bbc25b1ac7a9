# Bet On Yourself: a verified model of the betting core

"Bet On Yourself" is a habit-betting web application. A user stakes coins on
keeping a habit for 2 to 12 weeks. Each week they check in. Finishing every
week pays back the stake times the number of weeks. Missing a week's deadline
forfeits the stake. Coins buy avatars and collectibles. A community wall shows
what other users do, and an accountability buddy is emailed when the user checks in.

This project models the application's behaviour in Dafny and proves properties of that model:

- **Schema**: the database rows and enumerations the core reads.
- **Ledger**: the rules every bets page shares. These are the status partition, what a won or lost bet is worth, the rounded win rate, and when a bet can be checked in.
- **BetsPage**, **ProfilePage**, **SrcBetsPage**, **Dashboard**: the stats, lists and cards these pages derive from the fetched bets.
- **CheckBetsCron**: the daily sweep that marks bets lost when their week's deadline passed without a check-in. It is a method with a loop, proved against recursive specification functions.
- **BuddyEmail**: the buddy-notification endpoint's ordered chain of status checks.
- **Wall**: the community wall's support rule, the relative-time labels, the id de-duplication and join, and the feed state. The feed state is a class.
- **AvatarMall**, **CollectiblesMall**: the shop pages' ownership flags, buttons and purchase handlers. Each page's state is a class.
- **RangeInput**: the value an `<input type="range">` holds, following the HTML Living Standard's value sanitization for range inputs.
- **CreateBet**, **NewBet**: the two bet-creation forms.
- **DailyBonus**: the daily bonus button.
- **Passwords**, **Login**, **ResetPassword**: the sign-in, sign-up and reset forms.

React state (`useState`) becomes the fields of a class, and each handler becomes a method with a `modifies` clause. Database queries, remote procedures, the auth service and the email service are not modelled. What they answer is an input of the operation that uses it.

## Model

| member | source | states |
|---|---|---|
| Common.OrDefault | app/avatar-mall/page.tsx:84 | `x \|\| d` on a string: the string when it is non-empty, the default otherwise |
| Common.ThrownMessage | app/new-bet/page.tsx:54 | the message of a thrown `Error`, the fallback text for anything else |
| Common.Take | app/dashboard/page.tsx:252 | `slice(0, n)` and `.limit(n)`: a prefix of at most n rows, and the whole list when it is shorter |
| Common.FilterMembers | app/bets/page.tsx:38-40 | a filtered list is no longer than the original and holds exactly the elements that satisfy the predicate |
| Common.FilterSplit | src/app/bets/page.tsx:42-43 | filtering by a predicate and by its negation splits the list without loss or overlap (as multisets) |
| Common.SumOfFilter | app/bets/page.tsx:43-44 | summing over the filtered rows equals summing a guarded term over all rows |
| Common.SumOfNonNegative | app/profile/page.tsx:55-56 | a `reduce` sum of non-negative terms is non-negative |
| Common.FindFirst | app/bets/page.tsx:90-92 | `find` yields nothing exactly when no element matches, and otherwise the element at the first matching index |
| Common.DedupSpec | app/wall/page.tsx:60-61 | `[...new Set(xs)]` keeps every element and repeats none |
| Ledger.RoundPercent | app/bets/page.tsx:45-47 | `Math.round(100·part/whole)` is the nearest integer to the exact ratio, halves rounded up, and lies in 0..100 when part ≤ whole |
| Ledger.CanCheckInIff | app/bets/page.tsx:90-93 | "Ready to check in" holds exactly when the first check-in row for the current week exists and is not completed |
| Ledger.CanCheckInWithUniqueWeeks | app/dashboard/page.tsx:128-131 | with one row per week, the check-in link shows exactly when the row (current week, not completed) exists |
| Ledger.StatusPartition | app/bets/page.tsx:38-40 | the active, won and lost lists together are the fetched bets, as a multiset and by count |
| Ledger.CompletedIsWonPlusLost | src/app/bets/page.tsx:46-47 | the finished bets are exactly the won plus the lost ones; active plus finished is all bets |
| Ledger.ResultAmountsSumToNet | app/bets/page.tsx:43-44 | the signed amounts on the finished rows (+stake×weeks, −stake) add up to total won minus total lost |
| Ledger.TotalsAsRowSums | app/bets/page.tsx:43-44 | the won (lost) total equals stake×weeks (stake) summed over every row of that status, with 0 for the other rows |
| Ledger.TotalsNonNegative | app/profile/page.tsx:55-56 | with non-negative stakes and durations, total won and total lost are non-negative |
| BetsPage.WinRate | app/bets/page.tsx:45-47 | win rate is 0 with no finished bet, otherwise round(100·won/(won+lost)); always in 0..100 |
| BetsPage.Summarize | app/bets/page.tsx:38-47 | the active, won and lost lists are the rows of that status in fetched order and together all bets; total won is Σ stake×weeks over won rows, total lost Σ stake over lost rows; won minus lost equals the sum of the row amounts; the rate is the page's rounded win rate, in 0..100 |
| BetsPage.HistoryLineOf | app/bets/page.tsx:171-206 | a won bet shows +stake×weeks, a lost bet −stake and "Failed at week current_week" |
| ProfilePage.WinRateMatchesBetsPage | app/profile/page.tsx:57-59 | the profile's guard (won+lost > 0) and the bets page's guard (more bets than active ones) give the same rate |
| ProfilePage.Stats | app/profile/page.tsx:51-59 | total won is Σ stake×weeks over won rows and total lost Σ stake over lost rows; the rate is the profile's rounded win rate, equal to the bets page's; net earnings = total won − total lost = sum of the finished rows' amounts; rate in 0..100; totals non-negative for well-formed rows |
| ProfilePage.AvatarCards | app/profile/page.tsx:140-165 | every owned avatar with data gets a card, and a card is marked Active exactly when its id is the profile's active avatar |
| ProfilePage.GroupByTier | app/profile/page.tsx:201-205 | at most three sections, in the order accessory, vehicle, property; each holds that tier's rows and none is empty |
| ProfilePage.EveryOwnedTierShown | app/profile/page.tsx:201-205 | a tier gets a section exactly when some owned row is of that tier |
| ProfilePage.TiersCoverRows | app/profile/page.tsx:201-205 | every row with collectible data lies in exactly one tier section |
| SrcBetsPage.HistoryThenStatus | src/app/bets/page.tsx:46-53 | picking won (or lost) bets out of the history gives the same list as picking them out of all bets |
| SrcBetsPage.ActiveAndHistorySplit | src/app/bets/page.tsx:42-43 | active and completed bets split the fetched bets without loss or overlap |
| SrcBetsPage.OverviewOf | src/app/bets/page.tsx:42-87 | counts add up to the number of bets; totals agree with the other pages; the net is prefixed "+" exactly when it is ≥ 0 |
| Dashboard.ActiveCards | app/dashboard/page.tsx:128-172 | one card per active bet, in order; the win shown is stake×weeks; the check-in link for the current week shows exactly when the bet can be checked in |
| Dashboard.RecentResults | app/dashboard/page.tsx:231-233 | min(5, fetched) results (the query's `.limit(5)`, every fetched row rendered), the first finished bets in order; each is +stake×weeks when won and −stake otherwise |
| Dashboard.WallPreview | app/dashboard/page.tsx:252-275 | min(3, fetched) events in order; only a `bet_created` event gets a Support link |
| CheckBetsCron.UnsetSecretAcceptsLiteralUndefined | app/api/cron/check-bets/route.ts:16 | in production with no secret, the check as written admits the header "Bearer undefined" |
| CheckBetsCron.AuthorizedOnlyWithSecret | app/api/cron/check-bets/route.ts:15-18 | the corrected check admits no production request without a configured secret, admits only `Bearer <secret>`, and otherwise agrees with the check as written |
| CheckBetsCron.Deadline | app/api/cron/check-bets/route.ts:49-55 | the deadline is seven days after the current week's start, i.e. started_at + 7·current_week days |
| CheckBetsCron.CheckBets | app/api/cron/check-bets/route.ts:13-89 | 401 and no calls when the check as written refuses, so with the secret unset in production "Bearer undefined" is let through; 500 on a query error; "no active bets" when the list is null or empty; otherwise it processes every bet and the looked-up ids, the loss calls and the lost count are those of the specification |
| CheckBetsCron.SweepCountsBounded | app/api/cron/check-bets/route.ts:45-78 | 0 ≤ lost count ≤ loss calls ≤ look-ups ≤ active bets |
| CheckBetsCron.LossCallsAreTheEligibleBets | app/api/cron/check-bets/route.ts:58-71 | a bet is sent to the loss procedure exactly when its deadline strictly passed and its week's check-in row exists uncompleted |
| CheckBetsCron.CallsIndependentOfOutcomes | app/api/cron/check-bets/route.ts:47-78 | a failed loss call does not stop the sweep: which bets are looked up and called does not depend on call outcomes |
| CheckBetsCron.LostCountMatchesSuccesses | app/api/cron/check-bets/route.ts:73-75 | the count equals the calls when all succeed and is zero when none does |
| CheckBetsCron.NothingDueNothingResolved | app/api/cron/check-bets/route.ts:58 | before every deadline, nothing is looked up, called or counted |
| BuddyEmail.UserName | app/api/email/buddy/route.ts:69 | the owner's display name, or "Your friend" when the profile or the name is null (an empty name is kept) |
| BuddyEmail.Relationship | app/api/email/buddy/route.ts:70 | the bet's buddy relationship, or friend when it is null |
| BuddyEmail.Content | app/api/email/buddy/route.ts:69-142 | the email goes to the buddy, its subject names the user, and it reports current_week − 1 of duration_weeks weeks completed (in 0..duration−1 for a bet in progress) |
| BuddyEmail.Post | app/api/email/buddy/route.ts:5-161 | missing email key → 503 first, missing database settings → 503 next; an email is sent exactly when every check passes; 200 with the message id exactly when it was also accepted; a send error or throw → 500 |
| BuddyEmail.RequestChecksInOrder | app/api/email/buddy/route.ts:30-67 | bad JSON → 500, missing field → 400, unknown bet → 404, someone else's bet → 403 (even without a buddy), no buddy → 400, in that order |
| BuddyEmail.SuccessOnlyForOwner | app/api/email/buddy/route.ts:54-59 | a success answers only the bet's owner, and the email then went to the bet's buddy |
| BuddyEmail.StatusClasses | app/api/email/buddy/route.ts:5-161 | the status is one of 200, 400, 403, 404, 500, 503; no email goes out on a 4xx or a 503 |
| BuddyEmail.DefaultsOnlyShapeTheEmail | app/api/email/buddy/route.ts:69-70 | the owner profile never changes the status; a null profile and a profile with a null name give the same email |
| Wall.CanSupportIff | app/wall/page.tsx:148-160 | support is offered exactly to a signed-in viewer, on a `bet_created` event with an active bet of someone else created less than 14 days ago |
| Wall.SupportWindowOnlyCloses | app/wall/page.tsx:155-159 | a bet supportable now was supportable earlier, and never is 14 days after creation |
| Wall.ElapsedSeconds | app/wall/page.tsx:139 | the floor of the elapsed milliseconds over 1000 |
| Wall.FormatTimeAgo | app/wall/page.tsx:136-146 | "just now" below 60 s (negative ages included), then ⌊s/60⌋ m, ⌊s/3600⌋ h, ⌊s/86400⌋ d below a week, and the date beyond |
| Wall.LabelsCoarsenOverTime | app/wall/page.tsx:141-145 | as time passes, an event's label never becomes finer |
| Wall.Compact | app/wall/page.tsx:60-61 | `filter(Boolean)` keeps exactly the ids that are set and non-empty |
| Wall.UserIdColumn | app/wall/page.tsx:60 | the author-id column of the events, position by position |
| Wall.BetIdColumn | app/wall/page.tsx:61 | the bet-id column of the events, position by position |
| Wall.UserIds | app/wall/page.tsx:60 | the author ids, each once, exactly the non-empty ones that occur |
| Wall.BetIds | app/wall/page.tsx:61 | the bet ids, each once, exactly the non-empty ones that occur |
| Wall.MatchProfile | app/wall/page.tsx:74 | the profile found has the event's author id; none is found exactly when no profile has it |
| Wall.MatchBet | app/wall/page.tsx:75 | the bet found has the event's bet id; none is found exactly when no bet has it |
| Wall.Enrich | app/wall/page.tsx:72-76 | enrichment keeps the events' order and length, and joins each with its matching profile and bet |
| Wall.WallFeed.constructor | app/wall/page.tsx:15-18 | an empty feed that is loading, with no user |
| Wall.WallFeed.SetCurrentUser | app/wall/page.tsx:26 | records the signed-in user and changes nothing else |
| Wall.WallFeed.FetchEvents | app/wall/page.tsx:51-81 | with events, the feed becomes their enrichment; the bet query is skipped when no event names a bet; loading ends either way |
| Wall.WallFeed.OnInsert | app/wall/page.tsx:95-126 | the new enriched event is put first and the earlier events follow unchanged; a profile or bet is looked up only when its id is set |
| AvatarMall.OwnedIdSet | app/avatar-mall/page.tsx:55 | the owned set is exactly the avatar ids of the user's rows |
| AvatarMall.WithOwnership | app/avatar-mall/page.tsx:59-62 | each avatar, in order, with `owned` equal to membership of its id in the owned set |
| AvatarMall.MarkOwned | app/avatar-mall/page.tsx:90-92 | only the bought avatar's flag becomes true; every other entry is unchanged |
| AvatarMall.MarkOwnedMatchesSetInsert | app/avatar-mall/page.tsx:89-92 | updating the list and adding the id to the set keep flags and set in agreement |
| AvatarMall.MarkOwnedIdempotent | app/avatar-mall/page.tsx:90-92 | marking the same avatar twice changes nothing more |
| AvatarMall.ControlFor | app/avatar-mall/page.tsx:171-247 | owned: Active badge or set-active button (disabled while setting it); unowned price 0: "Free"; otherwise a buy button disabled exactly when unaffordable or being bought |
| AvatarMall.BuyEnabledWhenAffordable | app/avatar-mall/page.tsx:173-231 | an affordable avatar that is not being bought can be bought; an owned one never shows a buy button |
| AvatarMall.AvatarMallPage.constructor | app/avatar-mall/page.tsx:13-19 | the initial state: nothing loaded, loading, no error |
| AvatarMall.AvatarMallPage.FetchData | app/avatar-mall/page.tsx:22-67 | signed in: the profile, the owned set and the flagged catalogue are loaded and agree |
| AvatarMall.AvatarMallPage.HandlePurchase | app/avatar-mall/page.tsx:72-111 | an error leaves list, set and profile unchanged and shows the message; success adds exactly that avatar; purchasingId is null afterwards; flags stay consistent |
| AvatarMall.AvatarMallPage.HandleSetActive | app/avatar-mall/page.tsx:113-136 | success changes only the profile's active avatar id; an error leaves the profile unchanged; settingActiveId is null afterwards |
| CollectiblesMall.WithOwnership | app/collectibles-mall/page.tsx:52-62 | each collectible, in order, with `owned` equal to membership of its id in the owned set |
| CollectiblesMall.MarkOwned | app/collectibles-mall/page.tsx:87-89 | only the bought collectible's flag becomes true |
| CollectiblesMall.MarkOwnedMatchesSetInsert | app/collectibles-mall/page.tsx:52-89 | marking a purchase equals rebuilding the list with the id added to the owned set |
| CollectiblesMall.OwnedCountBounded | app/collectibles-mall/page.tsx:196-220 | per tier and overall, owned ≤ items |
| CollectiblesMall.TierCountsAddUp | app/collectibles-mall/page.tsx:118-120 | the three tier sections show every item once, and their owned counts add up to the total owned |
| CollectiblesMall.CrownIffAllOwned | app/collectibles-mall/page.tsx:259 | the crown shows exactly when every collectible is owned |
| CollectiblesMall.ControlFor | app/collectibles-mall/page.tsx:146-182 | owned items show a badge; others a buy button disabled exactly when unaffordable or being bought |
| CollectiblesMall.CollectiblesMallPage.constructor | app/collectibles-mall/page.tsx:13-17 | the initial state: nothing loaded, loading, no error |
| CollectiblesMall.CollectiblesMallPage.FetchData | app/collectibles-mall/page.tsx:19-65 | signed in: the profile and the flagged catalogue are loaded |
| CollectiblesMall.CollectiblesMallPage.HandlePurchase | app/collectibles-mall/page.tsx:70-108 | an error leaves the list and profile unchanged and shows the message; success marks exactly that item; purchasingId is null afterwards |
| RangeInput.EffectiveMax | src/app/bets/new/CreateBetForm.tsx:135 | the range's maximum is `max`, raised to `min` when below it |
| RangeInput.Clamp | src/app/bets/new/CreateBetForm.tsx:134-136 | the clamped value lies in the range, and a value already inside is kept |
| RangeInput.Sanitize | src/app/bets/new/CreateBetForm.tsx:131-139 | the value the slider holds is a step position in the range, a position is kept, and it is a nearest position to the clamped request |
| CreateBet.StakeMax | src/app/bets/new/CreateBetForm.tsx:135 | min(500, balance) |
| CreateBet.StakeChoices | src/app/bets/new/CreateBetForm.tsx:133-143 | stakes run from 10 in steps of 10 up to min(500, balance); below 10 coins the only position is 10 |
| CreateBet.InitialStakeMismatchAsWritten | src/app/bets/new/CreateBetForm.tsx:131-137 | as written, with balance 35 the slider holds and submits 30 while the state and preview say 50 |
| CreateBet.InitialStake | src/app/bets/new/CreateBetForm.tsx:34 | the corrected initial stake is a slider position that is submitted as is, and is 50 whenever 50 is a position |
| CreateBet.PreviewMatchesSubmission | src/app/bets/new/CreateBetForm.tsx:131-139 | a stake the slider can hold is exactly what the form submits |
| CreateBet.CreateBetForm.constructor | src/app/bets/new/CreateBetForm.tsx:29-35 | the initial state: stake 50 whatever the balance, 4 weeks, no error, not submitting, buddy fields hidden |
| CreateBet.CreateBetForm.PayoutBounds | src/app/bets/new/CreateBetForm.tsx:37 | in every reachable state the previewed payout stake×weeks is between 20 and 6000; it is at most 12×balance once the stake is a slider position, and the payout of the stake actually posted always is |
| CreateBet.CreateBetForm.SetStake | src/app/bets/new/CreateBetForm.tsx:138 | sets the stake only |
| CreateBet.CreateBetForm.SetDuration | src/app/bets/new/CreateBetForm.tsx:117 | sets the duration only |
| CreateBet.CreateBetForm.ToggleBuddyFields | src/app/bets/new/CreateBetForm.tsx:174 | flips the buddy section only |
| CreateBet.CreateBetForm.Submit | src/app/bets/new/CreateBetForm.tsx:39-53 | the stake posted is the slider's sanitized value, a slider position, equal to the state exactly when the state is a position; an error result is shown and ends submitting; a rejected call (no `catch`) leaves the form submitting with no error; otherwise the form navigates to the new bet |
| CreateBet.CreateBetForm.EnabledSubmitWithinBalance | src/app/bets/new/CreateBetForm.tsx:213 | the button is disabled whenever the balance is under 10, and a submission it allows posts a stake between 10 and the balance |
| NewBet.SliderPositions | app/new-bet/page.tsx:132-158 | stakes are exactly 10, 20, …, 500 and durations 2..12 |
| NewBet.TrimStart | app/new-bet/page.tsx:210 | a suffix of the text that does not start with white space, and everything removed before it is white space |
| NewBet.TrimEnd | app/new-bet/page.tsx:210 | a prefix of the text that does not end with white space, and everything removed after it is white space |
| NewBet.TrimEmptyIffBlank | app/new-bet/page.tsx:210 | `trim()` is empty exactly when every character is JavaScript white space |
| NewBet.BuddyFields | app/new-bet/page.tsx:44-45 | an empty buddy email is sent as null with no relationship; any other with relationship friend |
| NewBet.NewBetForm.constructor | app/new-bet/page.tsx:21-27 | the initial state: health, 4 weeks, stake 100, no buddy |
| NewBet.NewBetForm.PotentialWinBounds | app/new-bet/page.tsx:29 | the potential win stake×weeks is between 20 and 6000 and a multiple of 10 |
| NewBet.NewBetForm.SubmitEnabledIff | app/new-bet/page.tsx:210 | submit is enabled exactly when nothing is in flight and the habit has a non-white-space character |
| NewBet.NewBetForm.Edit | app/new-bet/page.tsx:91-174 | the inputs' handlers set their fields and nothing else |
| NewBet.NewBetForm.Args | app/new-bet/page.tsx:39-46 | the procedure receives the form's fields and the buddy defaults |
| NewBet.NewBetForm.Submit | app/new-bet/page.tsx:31-58 | the arguments sent are the form's; success navigates to the new bet; a failure shows the thrown message or "Failed to create bet"; never submitting afterwards |
| DailyBonus.ClaimedTodayIsRecent | components/DailyBonusButton.tsx:16-19 | a claim counts for today only if it is less than a day from now; a claim made now counts; no claim never counts |
| DailyBonus.ClaimStaysCountedUntilMidnight | components/DailyBonusButton.tsx:17-19 | a claim counted later in the day was already counted at every moment since it was made |
| DailyBonus.DailyBonusButton.constructor | components/DailyBonusButton.tsx:11-14 | not loading, nothing just claimed |
| DailyBonus.DailyBonusButton.HandleClaim | components/DailyBonusButton.tsx:21-44 | the banner turns on exactly when a positive amount was credited; errors leave it as it was; it never turns off; loading ends |
| Passwords.Utf16LengthBounds | src/app/login/page.tsx:38 | a string's JavaScript length is between its number of characters and twice that |
| Passwords.PasswordProblem | src/app/reset-password/page.tsx:20-28 | no problem exactly when the entries match and are at least 6 long; a mismatch is reported before the length |
| Passwords.LengthRuleInCharacters | src/app/login/page.tsx:38 | six characters always pass the length rule, fewer than three never do |
| Login.SocialLoginError | src/app/login/page.tsx:88-97 | the message starts with the provider's name (X for Twitter) and ends with the fixed text |
| Login.SocialLoginErrorsDistinct | src/app/login/page.tsx:90-96 | different providers get different messages |
| Login.LoginForm.constructor | src/app/login/page.tsx:13-21 | empty fields, sign-in mode, and the URL's error as the initial error |
| Login.LoginForm.EditFields | src/app/login/page.tsx:15-17 | the inputs' handlers set their fields and nothing else |
| Login.LoginForm.HandleEmailAuth | src/app/login/page.tsx:23-72 | sign-up reports a mismatch, then a short password, without calling the service; otherwise it signs up and shows the service error or the confirmation message; sign-in stays loading on success |
| Login.LoginForm.HandleSocialLogin | src/app/login/page.tsx:74-99 | a failure shows the provider's message and ends loading; success stays loading |
| Login.LoginForm.ToggleMode | src/app/login/page.tsx:101-106 | flips the mode and clears error, message and confirmation; email and password stay |
| ResetPassword.ResetPasswordForm.constructor | src/app/reset-password/page.tsx:9-13 | empty fields, not loading |
| ResetPassword.ResetPasswordForm.EditFields | src/app/reset-password/page.tsx:9-10 | the inputs' handlers set their fields and nothing else |
| ResetPassword.ResetPasswordForm.Submit | src/app/reset-password/page.tsx:15-47 | the service is called exactly when the entries pass; a rejected entry leaves loading as it was; success shows the redirect message and stays loading |

## Left out

- Rendering: JSX markup, CSS classes, emoji and the HTML email template text are not modelled. The model keeps only the values the pages compute.
- Navigation (`router.push`, `router.refresh`, the two-second redirect timer) is not modelled. Handlers return the route they would take where it matters.
- I/O is not modelled. This covers the database queries, remote procedures, auth calls, the realtime channel subscription and teardown, and email sending. Their answers are operation inputs, and the procedures' bodies (balances, escrow) are not part of this repository.
- Time: `new Date()` is a parameter. A day is taken as 24 hours, so `setDate` arithmetic across a daylight-saving change is not modelled. Unparseable date strings are not modelled.
- DailyBonus: `toDateString` is modelled as a calendar day under a fixed offset from UTC. Locale-specific date text (`toLocaleDateString`) is the `OnDate` label.
- Floating point: `Math.round` of the win rate is modelled over exact rationals. The progress-bar widths are not modelled, because they are presentation in floating point.
- CheckBetsCron.CheckBets: an exception thrown inside the sweep's loop (a rejected promise, not an error result) is not modelled. The source answers it with the same 500 as a query error.
- CheckBetsCron.CheckBets: one `now` is used for the whole sweep, while the source reads the clock again for each bet (route.ts:58), so a deadline that passes during the sweep is not modelled.
- The dashboard's random encouragement message is not modelled, because it is nondeterministic.
- Pages that only render or wrap a single call are not modelled: the headers, layouts, landing pages, the forgot-password page, the auth-error page, the older dashboard and its bet-creation action. The type declaration files contribute only the enumerations and columns in Schema.
- BuddyEmail: the JSON body is modelled as two optional strings. A non-string `betId` or `userId` is not modelled.
- NewBet.NewBetForm.Submit: whether the procedure's error is an `Error` instance is an input (`thrown`), because that depends on the client library.

## Findings

| source | as written | input that shows it | evidently intended | confidence | as-written member | corrected member |
|---|---|---|---|---|---|---|
| app/api/cron/check-bets/route.ts:16 | the header is compared with `Bearer ${CRON_SECRET}`, which renders an unset secret as the text "undefined" | production, `CRON_SECRET` unset, header `Bearer undefined`: the sweep runs | a production request without a configured secret is refused | high; not executed | CheckBetsCron.UnsetSecretAcceptsLiteralUndefined | CheckBetsCron.AuthorizedOnlyWithSecret |
| src/app/bets/new/CreateBetForm.tsx:34 | the stake state starts at 50 whatever the balance, while the slider's maximum is min(500, balance) | balance 35: the slider holds and submits 30, while the label, the payout preview (200) and the state say 50 | the initial stake is a position the slider can hold | medium; not executed | CreateBet.InitialStakeMismatchAsWritten | CreateBet.InitialStake |
