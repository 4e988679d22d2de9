# Verification of the campus network client's front-end logic

A model, in Dafny, of the parts of the client that must be right for every input and every interleaving, with proofs.
`dafny verify dfyconfig.toml` checks the whole project. The modules follow the program's files.

| modules | what they model |
|---|---|
| `Calendar`, `Buckets` | the Gregorian day numbers behind `Date` (section 21.4.1 of ECMA-262), Beijing-time buckets, the choice of scale, zooming, the time grid |
| `UsageTotals`, `UsageCurves`, `UsageRunning`, `UsageChart`, `UsageTheorems`, `UsageRows`, `MonthToDate` | the usage chart: accumulation into curves, running and month-to-date totals over three tiers of rows, what every chart keeps, and row by row what it is made of |
| `Csv` | the exported tables and an independent reader of section 2 of RFC 4180 |
| `AlipayDesk`, `AlipayRuns`, `AlipayReplaced`, `AlipayBounds`, `AlipayLimits`, `AlipayOrders` | the Alipay recharge: window state as a class, whole runs of timers, clicks, focus events and backend replies, exactly when its limits hold, and what every reply leads to |
| `WechatChecks`, `WechatOrders` | the automatic checks of the WeChat recharge: how often, and when at all |
| `TopUp`, `Decimals` | amounts read from text and the suggested top-up |
| `RouterScope`, `RouterBilling`, `RouterRuns`, `RouterScreen`, `RouterChoice` | refreshing billing data through a router: steps as functions, the object that takes them, every run, what the replies put on screen, and for whom |
| `CaptchaQueue`, `RouterRecords` | the captcha dialogs of concurrent queries; the paged export of records |
| `ConfigQr`, `ConfigQrRuns` | QR transfer frames and the order-insensitive collector |
| `AccountMigration` | the merge of an earlier version's accounts |
| `CustomSelectIndex`, `CustomSelectMenus` | the select control's index and the exclusivity of open menus |
| `NetworkExperience`, `NetworkProgress` | filters for late connectivity reports and progress events |

Seconds are integers, megabytes reals, money integers or exact decimals. What the outside world decides (replies of the
backend, the router and the payment platform, clicks, timers firing, whether the app is hidden) is an event or a
parameter that may take any value. Each `await` of the program ends one atomic step. SHA-256 and the check of a decoded
backup are arbitrary functions; that no other text has the same digest is a hypothesis of the one theorem that needs it.
A pending timer whose handle is always cleared before it is set again is a flag; where the program may overwrite a
handle, the timers left without one are counted.

## Where the code does not keep the promise

Each of these has its exact condition, proved in both directions.

- `Date.UTC` reads the years 0..99 as 1900..1999, so a month bucket is wrong exactly for those years
  (`Buckets.BucketHolds`), and a month grid that begins before them steps over the years to 1900
  (`Buckets.GridPartition`). Far outside any recorded usage.
- An Alipay order remembered or restored on a free desk, while a completion is in flight that has not submitted its
  transfer or still shows its closing alert, can lead to two transfers of one payment, and only then
  (`AlipayReplaced.RememberingIsSafeIff`). The program does so when the user replaces an order: giving it up resets the
  busy flag (`src/main.ts:6390`, called at `src/main.ts:6743`).
- The limits of 180 automatic checks and 5 automatic transfer attempts are looked at when a timer is armed, not when it
  fires, and a completion started before the arrival was known resets the attempts when it finds the arrival again. The
  exact discipline on the steps under which both limits hold is `AlipayLimits.LimitsHoldIff`;
  `AlipayLimits.SixAttemptsUnattended` passes the second without any act of the user.
- The limit of 20 WeChat checks holds exactly if orders are remembered only while the desk is held or no completion is
  in flight (`WechatChecks.RememberingIsSafeIff`). A completion that succeeds leaves that guard while its closing alert
  is open (`WechatChecks.ClosingAlertIsOutside`).
- A negative balance with more than four decimals can get a suggestion that is short by less than a ten-thousandth
  (`TopUp.SuggestionIsLeast`).
- On a router without the billing centre, a refresh that starts from the cache without knowing the account can publish
  two accounts (`RouterRuns.UnsureRefreshMixes`); any other refresh names one (`RouterRuns.PublicationsInOrder`).
- A health report without its generation or probe can be replaced by an earlier one
  (`NetworkExperience.GoesBackIff`).
- A legacy list with two passwords for one user loses all but the first without a reported conflict
  (`AccountMigration.LostWithoutConflictIff`).

## Model

| member | source | states |
|---|---|---|
| `Calendar.MonthHoldsDay` | src/device-usage-model.ts:109-113 | The month start and next month computed through `Date.UTC` enclose a day if and only if its year is not one of 0..99, and then they are 28 to 31 days apart |
| `Calendar.MonthUnique` | src/device-usage-model.ts:110-113 | The year and month of a day are determined by the month span that contains it, in both directions of the civil calendar |
| `Calendar.NextIsStart` | src/device-usage-model.ts:141-143 | The first of the following month is the start of its own month, unless and only unless it is 1 January of the year 0 |
| `Calendar.CivilMonths` | src/device-usage-model.ts:109-113 | The days behind `Date` follow the civil calendar: months of their lengths, the Gregorian leap years, the next year twelve months on |
| `Calendar.Epoch` | src/device-usage-model.ts:111-112 | Days are counted from 1 January 1970 |
| `Buckets.MonthBucketHolds` | src/device-usage-model.ts:109-113 | An instant lies in its month bucket if and only if its Beijing year is not one of 0..99 |
| `Buckets.TwoDigitYearIsMisplaced` | src/device-usage-model.ts:110-113 | For every year from 0 to 99 the month bucket of its 1 January is 1 January 1900 years later |
| `Buckets.BucketHolds` | src/device-usage-model.ts:109-116 | At every scale an instant lies between its bucket start and the next if and only if its month bucket is not misread |
| `Buckets.BucketWidths` | src/device-usage-model.ts:114-116 | Minute, 5 and 15 minute, hour and day buckets have those widths, and days begin at midnight in Beijing |
| `Buckets.BucketIsCivilMonth` | src/device-usage-model.ts:109-113 | Outside the years 0..99 the month bucket and the next are the bounds, in Beijing, of the civil month the instant lies in |
| `Buckets.BucketIdempotent` | src/device-usage-model.ts:109-116 | Bucketing a bucket start gives it back, for every instant and scale |
| `Buckets.BucketMonotone` | src/device-usage-model.ts:109-116 | A later instant has no earlier bucket, except and only except one of a later year that a misread bucket lies beyond |
| `Buckets.BucketsNest` | src/device-usage-model.ts:109-116 | Coarse after fine equals coarse for every instant and pair of scales, month included, and a fine bucket lies inside a coarse bucket that is not misread |
| `Buckets.ChooseScale` | src/device-usage-model.ts:135 | The coarsening loop ends with the first scale, from the requested one on, that needs at most 4500 steps |
| `Buckets.EffectiveScale` | src/device-usage-model.ts:135 | That scale fits, is not finer than the requested one, and every scale skipped on the way does not fit |
| `Buckets.ZoomedWindow` | src/device-usage-model.ts:126-130 | A zoomed window is as wide as the old one times the factor, between a minute and 3660 days, and keeps the anchor at its relative place, clamped to an edge when outside and in the middle of an empty window |
| `Buckets.ZoomNeverForcesMonths` | src/device-usage-model.ts:126-135 | A window made by zooming from a fixed-width scale is never coarsened past the day |
| `Buckets.BuildGrid` | src/device-usage-model.ts:138-145 | The loop lists the steps from the first bucket to the last, at most 5000 |
| `Buckets.GridPartition` | src/device-usage-model.ts:137-146 | For every window, instant and scale: a bucket is listed if and only if it lies between the buckets of the window's ends, before the cap, and not in the years 100 to January 1900 of a month grid that begins before the year 0; lines strictly increase, so none is listed twice |
| `Buckets.LocateBucket` | src/device-usage-model.ts:137-146 | An instant inside the grid has its bucket at exactly one index |
| `Buckets.FittingGridIsSmall` | src/device-usage-model.ts:135-145 | After coarsening a fixed-width grid has at most 4501 lines, so the cap never cuts it |
| `Buckets.ZoomedMonthGridIsSmall` | src/device-usage-model.ts:126-145 | A zoomed window needs at most 132 month lines, wherever it lies |
| `UsageCurves.Accumulate` | src/device-usage-model.ts:146-163 | The accumulation loop yields one curve for each id some row is placed on, each with exactly its rows' usage and measured span per bucket, and the right sample count and total |
| `UsageCurves.CurveTotalsAddUp` | src/device-usage-model.ts:150-163 | The curve totals add up to the usage of the placed rows |
| `UsageCurves.PointsAddUp` | src/device-usage-model.ts:155-157 | The points of a curve add up to its total |
| `UsageCurves.BucketAddsUp` | src/device-usage-model.ts:150-163 | At each bucket the curves add up to all usage placed in it |
| `UsageRunning.JoinFlags` | src/device-usage-model.ts:165-170 | A point is joined to the previous drawn point exactly if that is adjacent or, on minute rows, their measured spans touch |
| `UsageRunning.PrefixUsage` | src/device-usage-model.ts:176-182 | The month prefix loop sums exactly the rows in the three ranges of day, hour and minute rows |
| `UsageRunning.PrefixTiles` | src/device-usage-model.ts:179-182 | Those three ranges tile the time from the month's start to the bucket, each stretch once |
| `UsageRunning.PrefixRecords` | src/device-usage-model.ts:179-182 | If each tier records a meter, the prefix is the meter's gain since the month began |
| `UsageRunning.MonthTotals` | src/device-usage-model.ts:171-184 | The month-to-date loop equals its specification: a restart with the prefix at each new month, a running sum in between |
| `UsageRunning.RangeTotals` | src/device-usage-model.ts:171-184 | The cumulative loop gives the running sums of the points and keeps missing points missing |
| `UsageChart.Draw` | src/device-usage-model.ts:164-185 | A line holds the points of its mode and the join flags of its bucket points |
| `UsageChart.BuildChart` | src/device-usage-model.ts:131-187 | The chart built by the program is the specified one: scale, grid, one line for each curve some accepted row is drawn on, totals |
| `UsageTheorems.ChartConserves` | src/device-usage-model.ts:146-163 | The chart total is the usage of the drawn rows, the curve totals add up to it, and in the delta view each line's points add up to its curve |
| `UsageTheorems.MissingPoints` | src/device-usage-model.ts:150-157 | In every mode a point is missing if and only if no accepted row was drawn in its bucket of its curve |
| `UsageTheorems.SumOfInterfaces` | src/device-usage-model.ts:153-162 | The summed curve is at every bucket the sum of the unfiltered interface curves, and missing exactly where all of them are |
| `UsageTheorems.CumulativeCurve` | src/device-usage-model.ts:171-184 | Cumulative values never decrease and the last one is the curve's total |
| `UsageRows.PointSums` | src/device-usage-model.ts:146-157 | A point of the delta view is the sum of the usage of exactly those stored rows that are of the chosen account and interface, up to now, sampled, of the scale's tier, measured by the window's end and in the point's bucket; without any it is missing |
| `UsageRows.TotalSums` | src/device-usage-model.ts:146-162 | Chart total and sample count are those of all rows so selected in any bucket of the grid |
| `UsageRows.CurvesAre` | src/device-usage-model.ts:153-162 | There is a curve for an interface if and only if some row of it is drawn |
| `UsageRows.JoinedIff` | src/device-usage-model.ts:164-170 | A point is joined to the nearest before it if and only if that is in the bucket before or, on buckets finer than an hour, some row of the one starts at most a second after some row of the other ends |
| `UsageRows.LeftOutRowsDoNotMatter` | src/device-usage-model.ts:148 | A row of another account than the one chosen, of an interface that was not selected, later than now, without sampled time or with negative usage can be removed without changing the chart, in every mode |
| `UsageRows.DrawnRowsCount` | src/device-usage-model.ts:149-162 | Every other row of the tier that is measured and lies in the grid counts once and in full |
| `UsageRows.AccountsAddUp` | src/device-usage-model.ts:148 | Without an account chosen the chart's total is the sum of the totals of the charts of any accounts, each chosen by itself, and of the chart of the remaining rows |
| `UsageRows.ScaleIs` | src/device-usage-model.ts:132-135 | The scale shown is the first from the one asked for that shows the window, up to now, in 4500 steps |
| `UsageRows.InstantIsCharted` | src/device-usage-model.ts:133-146 | Every instant of the window up to now has its bucket among the lines, unless a month grid runs into the cap or misread years |
| `UsageRows.LinesAreInside` | src/device-usage-model.ts:133-145 | No line lies before the bucket of the window's start, nor after that of its end or of now |
| `MonthToDate.DrawnInBucket` | src/device-usage-model.ts:150-152 | In a bucket the window does not end in, a row is drawn if and only if it is an accepted row of the scale's tier in that bucket |
| `MonthToDate.MonthToDateReads` | src/device-usage-model.ts:171-184 | If the store records a meter, a month-to-date point is the reading since the Beijing month's start plus the bucket's own usage, which before the last bucket is the reading through the bucket's end |
| `MonthToDate.MonthToDateExact` | src/device-usage-model.ts:171-184 | If hour rows are sums of minute rows, day rows of hour rows, and each row ends in its own bucket, every month-to-date point before the last bucket is exactly the minute usage of the month through its bucket, at every scale |
| `MonthToDate.MonthToDateExactIff` | src/device-usage-model.ts:150-184 | Under the same conditions any point, the last included, falls short of the minute usage through its bucket by exactly the bucket's accepted rows still being measured at the window's end, so it is exact if and only if those have no usage |
| `Csv.RoundTrip` | src/device-usage-model.ts:188-194 | A reader of section 2 of RFC 4180 gets from the text after the byte order mark exactly the grid of guarded cells, whatever quotes, commas and line breaks they contain |
| `Csv.GuardedGridAt` | src/device-usage-model.ts:241-244 | Cell by cell, the grid read back is the guarded form of the grid written |
| `Csv.GuardedIsSafe` | src/main.ts:5925-5928 | No exported cell starts, after white space, like a formula, and exactly the cells that never did are unchanged |
| `Csv.GuardedIff` | src/main.ts:5925-5928 | A cell gets the apostrophe if and only if it is white space followed by one of the four formula characters |
| `Csv.GuardedCollides` | src/main.ts:5925-5928 | Two texts export alike if and only if they are equal or one is the other with the apostrophe in front |
| `Csv.ChartRows` | src/device-usage-model.ts:189-192 | Every drawn point gives exactly one row, ordered by time and then by curve, and an empty bucket none |
| `AlipayDesk.AlipayWindow.Schedule` | src/main.ts:6418-6433 | The conditions under which a check is planned |
| `AlipayDesk.AlipayWindow.Remember` | src/main.ts:6400-6409 | Remembering an order resets counters and arrival, and keeps the busy flag |
| `AlipayDesk.AlipayWindow.RestoreConfirmed` | src/main.ts:1842-1855 | An order restored as confirmed counts as arrived and is scheduled |
| `AlipayDesk.AlipayWindow.Clear` | src/main.ts:6379-6398 | Giving up an order also drops the busy flag |
| `AlipayDesk.AlipayWindow.Enter` | src/main.ts:6527-6541 | A completion takes the desk only if it is free and holds an order |
| `AlipayDesk.AlipayWindow.ReadBalances` | src/main.ts:6551-6601 | The arrival decision on a balance reading, with its counters |
| `AlipayDesk.AlipayWindow.ReadPreview` | src/main.ts:6603-6621 | The transfer is submitted only for the order still active and a matching preview |
| `AlipayDesk.AlipayWindow.Resume` | src/main.ts:6546-6683 | Every stretch of a completion between two awaited replies, the error path and the release included |
| `AlipayRuns.TransfersAreCaused` | src/main.ts:6523-6683 | In every run, without any hypothesis, a transfer is ordered for a payment only after it was restored as confirmed, or a card balance read for it was exactly the balance before it plus its amount |
| `AlipayRuns.TransfersAreReleased` | src/main.ts:6523-6683 | And that entry is backed by what happened: the user restored this very payment, or the backend answered for its accounts with exactly that balance |
| `AlipayRuns.ArrivalIsExact` | src/main.ts:6561-6601 | A matching balance of the active order whose arrival is not known to the completion leads on to the transfer if and only if the card gained exactly the amount, and the arrival is recorded if and only if it did |
| `AlipayRuns.AtMostOneTransfer` | src/main.ts:6374-6683 | In every run that remembers and restores orders only while the desk is held, or while every completion in flight has submitted its transfer and has yet to give its order up, at most one transfer is ordered for each payment; orders may be given up at any time |
| `AlipayReplaced.RememberingIsSafeIff` | src/main.ts:6400-6409 | That guard is exact in every state: after remembering or restoring an order some run under the guard orders a transfer twice for one payment if and only if the guard failed |
| `AlipayReplaced.ReplacedInFlightDoubles` | src/main.ts:6703-6743 | In every state with a completion that has not submitted its transfer, giving its order up and remembering another, as the program does, is followed by such a run |
| `AlipayBounds.AutomationIsBounded` | src/main.ts:6418-6433 | In every run, with M the largest number of timer callbacks at once: at most 179 + M automatic checks between acts that remember or reopen an order, and at most 4 + M automatic attempts, and as many again for each later detection of the arrival, between acts that remember or restore one; later detections are no more than the completions not told of the first, or clicked for after it |
| `AlipayBounds.BoundsAreReached` | src/main.ts:6425-6431 | For every M there are runs with 179 + M checks, and with 4 + M attempts after a single detection |
| `AlipayLimits.LimitsHold` | src/main.ts:6418-6433 | 180 checks and 5 attempts hold in every run under a discipline on the steps: a callback is armed only with room for those waiting, and no completion that was not told of the arrival enters once an attempt has been or is being counted |
| `AlipayLimits.LimitsHoldIff` | src/main.ts:6418-6433 | That discipline is exact, step by step: after a step some run under it passes a limit if and only if the step breaks it |
| `AlipayLimits.SixAttemptsUnattended` | src/main.ts:6584-6592 | A reachable state with one order, one callback at most and no act of the user since, from which more than five automatic attempts follow: a second check detects the arrival again |
| `AlipayOrders.NoHandoffNoCheck` | src/main.ts:6418-6433 | Until an order is handed to the payment page no check or attempt is planned or made, whatever else happens |
| `AlipayOrders.BackgroundStartsNothing` | src/main.ts:6426-6431 | While the app is in the background no completion takes the desk and no attempt is counted |
| `AlipayOrders.GivenUpIsQuiet` | src/main.ts:6379-6398 | An order given up leaves the desk as at first, and until another is remembered or restored no completion takes it |
| `AlipayOrders.ReleaseIs` | src/main.ts:6671-6683 | The end of a completion frees the desk and plans another attempt exactly if there is a handed-over order short of its limit |
| `AlipayOrders.NoArrivalIs` | src/main.ts:6567-6582 | Without an arrival the user is told if he asked, on Android the payment page is shown the first time after a handoff, and otherwise the completion ends |
| `AlipayOrders.ArrivalIs` | src/main.ts:6584-6601 | An arrival leads on to the preparation; read now it restarts the count of attempts |
| `AlipayOrders.FailureIs` | src/main.ts:6637-6670 | A failure before the transfer is submitted keeps the order |
| `AlipayOrders.ReplacedIs` | src/main.ts:6552-6613 | A completion whose order is no longer active ends without a transfer, after cancelling one it has prepared |
| `AlipayOrders.SubmittedIs` | src/main.ts:6620-6670 | Once submitted, a transfer gives its order up whether it succeeds or fails |
| `AlipayOrders.ArrivalIsTransferred` | src/main.ts:6546-6636 | A completion that reads the exact balance and meets no failure orders the transfer once, gives the order up and frees the desk, whatever else is in flight |
| `AlipayOrders.AllAttemptsAreMade` | src/main.ts:6418-6683 | Begun on a free desk an order is followed, without any act of the user, by 180 checks while no arrival is seen, or by 5 attempts once it is known, and then by none |
| `AlipayOrders.AttemptsCounted` | src/main.ts:6425-6431 | The counts in the bounds are of automatic checks and attempts, made in the foreground, since the order was begun or, for checks, its page reopened |
| `AlipayOrders.DetectionsCounted` | src/main.ts:6584-6592 | Later detections are those of an arrival already known, and the completions that can make one are counted when it is first known and with every click after that does not tell of it |
| `AlipayOrders.PeakIsLargest` | src/main.ts:6424-6431 | The peak in the bounds is the largest number of callbacks waiting or armed at once |
| `AlipayOrders.ReopeningIs` | src/main.ts:6490-6533 | Reopening the payment page allows the checks again, but not the attempts |
| `WechatChecks.WechatWindow.Schedule` | src/main.ts:6956-6976 | The conditions for an automatic check after the return to the app |
| `WechatChecks.WechatWindow.TimerFires` | src/main.ts:6969-6975 | A timer that fires drops the handle and counts a check only if it starts one |
| `WechatChecks.WechatWindow.ArmAgain` | src/main.ts:7042-7050 | An unpaid automatic check arms the next one below the limit, without clearing a timer already held |
| `WechatChecks.ChecksAreBounded` | src/main.ts:6956-6976 | At most 19 plus the largest number of pending timers checks after an order is remembered or handed over; one timer and 20 checks if orders are remembered only while the desk is held or no completion is in flight |
| `WechatChecks.RememberingIsSafeIff` | src/main.ts:6936-6946 | That guard is exact in every state: after remembering an order some run under the guard makes more than 20 checks if and only if the guard failed |
| `WechatChecks.ClosingAlertIsOutside` | src/main.ts:7088-7099 | A successful completion ends outside the guard: its order is cleared and the desk free while its closing alert is open, and an order remembered then can reach more than 20 checks |
| `WechatOrders.NoHandoffNoCheck` | src/main.ts:6956-6976 | Until an order is handed to the payment app or its code shown, no check is planned or made, whatever else happens |
| `WechatOrders.NewOrderIsQuiet` | src/main.ts:6936-6946 | So for an order just remembered, and after the payment app could not be opened |
| `WechatOrders.HiddenChecksNothing` | src/main.ts:6956-6976 | While the app is hidden no check is planned or made, even by timers set before |
| `WechatOrders.GivenUpIsQuiet` | src/main.ts:6910-6923 | An order given up is gone and the desk free, and until another is remembered no completion starts |
| `WechatOrders.AnswerDecides` | src/main.ts:7035-7052 | What an answer does: nothing for another order, the transfer if paid, otherwise the end with another check planned if it was automatic and fewer than twenty were made, on Android after a prompt the first time |
| `WechatOrders.EndDecides` | src/main.ts:7101-7118 | Every end frees the desk; only an uncertain transfer gives the order up |
| `WechatOrders.ClickDecides` | src/main.ts:7017-7029 | A click starts a completion if and only if there is an order and none holds the desk |
| `WechatOrders.OrderBegins` | src/main.ts:6936-6946 | A new order begins without a handoff, a check or a prompt, and takes over desk and timers as they are |
| `WechatOrders.HandoverOnce` | src/main.ts:6864-6868 | Without an order nothing is handed over, and showing the code again does not start the checks anew |
| `WechatOrders.TimerDecides` | src/main.ts:6969-6975 | A timer that fires is gone with its handle, and starts and counts a check exactly if there is an order, the desk free and the app in sight |
| `WechatOrders.TwentyChecks` | src/main.ts:6956-7052 | However many checks were made before, an order handed over or shown for the first time can be checked twenty times while unpaid, and then none is planned |
| `WechatOrders.HandoffPrompts` | src/main.ts:7038-7041 | On Android the first unpaid check after a handoff prompts, whatever was prompted before |
| `WechatOrders.PeakIsLargest` | src/main.ts:6968-6975 | The peak used in the bound is the largest number of pending timers so far |
| `TopUp.NumberIsFirst` | src/main.ts:6127-6128 | A number is found if and only if the text has a digit, and it is the first place where one can start |
| `TopUp.MatchAt` | src/main.ts:6127 | The match is what stands in the text there, and no digit is left over at its end |
| `TopUp.OneWayToLeaveOut` | src/main.ts:6127 | What is left without commas is the only text whose characters are those of the original that are not commas, in order |
| `TopUp.ReadsIff` | src/main.ts:6126-6137 | The parser reads a number exactly if it is the first maximal number of the text without its commas and not too large, both stated apart from the scan; the result is its value cut to four digits |
| `TopUp.NothingReadIff` | src/main.ts:6126-6134 | Nothing is read if and only if the text names no such number |
| `TopUp.CommasDoNotMatter` | src/main.ts:6127 | A comma anywhere in the text changes nothing |
| `TopUp.FirstFourRoundsDown` | src/main.ts:6130-6135 | Cutting a fraction to four digits rounds down, and loses something exactly if a dropped digit is not zero |
| `TopUp.TruncationIsClose` | src/main.ts:6129-6136 | The parsed balance is within one ten-thousandth of the exact one, below it or, when negative, above it |
| `TopUp.SuggestionIsLeast` | src/main.ts:6181-6192 | A suggested amount covers the fee if and only if it is not the case that digits dropped from a negative balance leave a whole number of cents; one cent less never covers it |
| `TopUp.NoSuggestion` | src/main.ts:6185-6187 | For every balance nothing is suggested if and only if the largest amount would not cover the fee and is not exactly what the parsed balance lacks |
| `TopUp.FallsShortForInstance` | src/main.ts:6129-6187 | A balance of -5.00005 and a fee of 10 get a suggestion that falls short |
| `TopUp.PrintedReadsBack` | src/main.ts:6126-6137 | A number printed without separators is found whole by the parser |
| `TopUp.AmountReadsBack` | src/main.ts:6188-6189 | The suggested amount, read again, is the amount suggested |
| `RouterBilling.RouterBillingCenter.Refresh` | src/router-billing-center.ts:140-149 | A running refresh is shared; otherwise the scope is captured, the data reset and one request started |
| `RouterBilling.RouterBillingCenter.SelectAccount` | src/router-billing-center.ts:131-138 | Choosing an account invalidates, resets and refreshes; an unknown one changes nothing |
| `RouterBilling.RouterBillingCenter.Invalidate` | src/router-billing-center.ts:151-157 | A new generation without data and without a shared refresh |
| `RouterBilling.RouterBillingCenter.CaptureScope` | src/router-billing-center.ts:393-404 | The account and uplink are re-picked even when no scope can be captured |
| `RouterBilling.RouterBillingCenter.ReadParts` | src/router-billing-center.ts:205-210 | The loop over the four modules stops at the first that names another account and keeps what it read before |
| `RouterBilling.RouterBillingCenter.TakeUpdate` | src/router-billing-center.ts:190-212 | What an update of the billing centre writes, skips and refuses |
| `RouterBilling.RouterBillingCenter.ReadPoll` | src/router-billing-center.ts:449-477 | The account check, the update, and each state of a polled ticket |
| `RouterBilling.RouterBillingCenter.Deliver` | src/router-billing-center.ts:184-252 | One delivered reply in any stage, dropped if the scope no longer holds |
| `RouterBilling.RouterBillingCenter.Resume` | src/router-billing-center.ts:455-472 | The end of a pause, of a captcha dialog or of a captcha answer |
| `RouterChoice.ChoicesAre` | src/router-billing-center.ts:120-124 | On offer are the account in use and exactly the router's accounts with a password |
| `RouterChoice.PickedIsOffered` | src/router-billing-center.ts:360-367 | The account picked is always on offer: the one chosen if it still is, otherwise the one the router is logged in with if that is |
| `RouterChoice.UplinkOfAccount` | src/router-billing-center.ts:369-380 | The uplink of a known account is the first logged in with its user, and the first of all if none is |
| `RouterChoice.UplinkOfNobody` | src/router-billing-center.ts:369-380 | Without a known account it is the first uplink with an account, and the first of all if none has |
| `RouterChoice.RefreshStarts` | src/router-billing-center.ts:140-149 | A refresh is shared, or picks account and uplink anew and starts one request for them, with the user every answer must name, exactly if there is a router with an uplink |
| `RouterChoice.SelectionIs` | src/router-billing-center.ts:131-138 | Choosing an offered account begins a generation no earlier request belongs to and refreshes for that account; any other choice does nothing |
| `RouterChoice.StaleReplyEnds` | src/router-billing-center.ts:406-418 | A reply under another generation, router or account ends its request and does nothing else |
| `RouterScreen.PartsReadShows` | src/router-billing-center.ts:203-208 | Up to the first part that names another account every ready part is stored, every failed one warned of, and any other leaves what was stored; from there on nothing is |
| `RouterScreen.UpdateShows` | src/router-billing-center.ts:187-210 | A new update that names one account is on screen: overview, sessions, ticket and those parts; it is published if and only if no part names another account and billing data are shown |
| `RouterScreen.OtherUpdateShowsNothing` | src/router-billing-center.ts:190-195 | Any other update changes nothing, and is refused if and only if its overview names an account that is not the answer's or not the one expected |
| `RouterScreen.CenterReply` | src/router-billing-center.ts:448-477 | A reply to the billing centre's query puts its update on screen and nothing else, and the query goes on if and only if it is still loading or asks for one of the first six captchas |
| `RouterScreen.OverviewShows` | src/router-billing-center.ts:226-234 | Without the billing centre the overview, its sessions and the ticket are on screen, and the first part is asked for next |
| `RouterScreen.PartShows` | src/router-billing-center.ts:235-252 | A part asked for is on screen if it is ready and warned of if it failed, and each is published; after the last the refresh is over |
| `RouterScreen.CachedShows` | src/router-billing-center.ts:215-222 | The first ready overview in the cache of the account expected, or of the uplink's, is shown |
| `RouterScreen.TicketStarts` | src/router-billing-center.ts:420-430 | A query starts polling only with a ticket, with no captcha shown so far |
| `RouterScreen.CaptchaShown` | src/router-billing-center.ts:461-463 | A captcha is shown the first six times a query asks for one and the seventh time it fails |
| `RouterScreen.ResumptionIs` | src/router-billing-center.ts:455-472 | A pause or an answer leads back to polling; a dialog cancelled, a code refused or a deadline passed is a failure |
| `RouterScreen.RejectionIs` | src/router-billing-center.ts:217-250 | A failure is ignored for the cache, a warning for a part, and otherwise the end of the refresh |
| `RouterScreen.LastUpdateIsShown` | src/router-billing-center.ts:184-212 | In every run the screen shows the overview, the sessions and every ready part of the last new update of the current refresh, up to a part that names another account |
| `RouterScreen.NewUpdateArrives` | src/router-billing-center.ts:184-212 | In every run a new update whose scope still holds becomes that last update and is published as it should |
| `RouterScreen.RefreshEndsComplete` | src/router-billing-center.ts:226-252 | In every run a refresh part by part that ends with an overview has each of the four parts on screen or warned of |
| `RouterRuns.OneLiveRefresh` | src/router-billing-center.ts:140-157 | In every run at most one refresh of the current generation is under way, and a shared one is live and current |
| `RouterRuns.PublicationsInOrder` | src/router-billing-center.ts:184-252 | In every run publications of an earlier refresh come before those of a later one, each is of the generation of its refresh, and all publications of one named refresh name the same account |
| `RouterRuns.ScreenIsCurrent` | src/router-billing-center.ts:382-391 | In every run the data on screen are of the current generation; with an action ticket, ticket, overview and modules are those of the latest refresh and its account |
| `RouterRuns.OnlyCurrentWrites` | src/router-billing-center.ts:406-418 | A step that is not a reply to the shared refresh under an unchanged generation, router and account publishes nothing and leaves the data or clears them |
| `RouterRuns.UnsureRefreshMixes` | src/router-billing-center.ts:219-226 | From every state where a refresh starts from the cache without knowing the account, a run publishes two accounts in that one refresh: the uplink's, or none if it has none, and another |
| `CaptchaQueue.CaptchaDesk.TakeTurn` | src/router-billing-center.ts:484-506 | A query whose turn has come gives up if stale, otherwise shows its dialog |
| `CaptchaQueue.CaptchaDesk.Invalidate` | src/router-billing-center.ts:151-157 | Invalidation cancels the dialog shown |
| `CaptchaQueue.TurnShowsIff` | src/router-billing-center.ts:484-511 | A query whose turn has come shows its dialog, the only one, if and only if its scope still holds; otherwise it is released and nothing is shown |
| `CaptchaQueue.InvalidationCloses` | src/router-billing-center.ts:151-157 | An invalidation closes the dialog that is open and releases no other query |
| `CaptchaQueue.SwitchedQueueDrains` | src/router-billing-center.ts:406-411 | After a change to another router or account the queries asked so far are released without another dialog |
| `CaptchaQueue.AskedIsShown` | src/router-billing-center.ts:484-488 | A query asked under the current scope gets its dialog, after exactly those of the current queries that asked before it |
| `CaptchaQueue.OneDialogInOrder` | src/router-billing-center.ts:484-528 | Over any run of concurrent queries at most one dialog is open and dialogs open in request order |
| `CaptchaQueue.NoDialogForOldGeneration` | src/router-billing-center.ts:484-488 | Once a generation is over no dialog opens for a query of an earlier one |
| `CaptchaQueue.QueueDrains` | src/router-billing-center.ts:484-488 | From every reachable queue, taking turns and closing dialogs releases every query and shows exactly the dialogs of the waiting queries whose scope holds, each once and in order |
| `CaptchaQueue.InvalidatedQueueDrains` | src/router-billing-center.ts:151-157 | After an invalidation all queries asked so far are released without another dialog |
| `RouterRecords.QueryRecords` | src/router-billing-center.ts:254-316 | An export succeeds if and only if every page passes its checks with the total and columns of the first and the total is at most 50,000; it holds exactly the pages' rows in order, after at most 500 fetches |
| `RouterRecords.CheckedIff` | src/router-billing-center.ts:274-283 | A page is accepted if and only if the reply is of the kind and page asked for and carries as many rows as the total leaves for it, each as wide as the columns |
| `RouterRecords.ForeignReplyFails` | src/router-billing-center.ts:275-283 | A reply of another kind or page to any request makes the query fail |
| `RouterRecords.ExportOfTable` | src/router-billing-center.ts:254-316 | Against a server that pages a fixed table the export is that table in order, and fails exactly if it is too long |
| `ConfigQr.ParsesExactlyPrinted` | src/config-qr.ts:28-31 | The parser accepts exactly the printed forms of well-formed frames and returns the frame, colons in the data included |
| `ConfigQr.FramesReadBack` | src/config-qr.ts:10-17 | Every frame of an encodable payload is within the 700 characters and is read back as made; there are 1 to 128 |
| `ConfigQr.EncodesIff` | src/config-qr.ts:11-16 | A payload is encoded if and only if it has 1 to 76,800 printable characters, into frames of 600 of which only the last may be shorter |
| `ConfigQr.SlicesJoin` | src/config-qr.ts:15-16 | The slices joined are the payload |
| `ConfigQr.ConfigQrCollector.Add` | src/config-qr.ts:26-47 | One scan: every refusal in the order of the checks, the write, and the final digest and envelope checks |
| `ConfigQr.RefusedForFirst` | src/config-qr.ts:27-36 | A scan is refused for the first of six checks that it does not pass, and accepted if it passes all |
| `ConfigQr.AssembleFrames` | src/config-qr.ts:40 | The frames joined in index order |
| `ConfigQrRuns.ReceiveKeeps` | src/config-qr.ts:27-41 | A scan refused before the write changes nothing; any other writes its own slot, which was empty or equal |
| `ConfigQrRuns.SessionExtends` | src/config-qr.ts:33-37 | Over any session slots stay within the backup's range, are written once, and the identity is never replaced |
| `ConfigQrRuns.StrangerIsRefused` | src/config-qr.ts:33-34 | In every session no scan is accepted that comes more than ten minutes after the one that opened the backup, or belongs to another backup, and it changes nothing |
| `ConfigQrRuns.ContradictionIsRefused` | src/config-qr.ts:35 | Nor one that says something else for a frame already accepted |
| `ConfigQrRuns.NoMixing` | src/config-qr.ts:34-46 | If no other text shares the backup's digest, any payload handed out in a session that accepted one of its frames is that backup |
| `ConfigQrRuns.AnyOrderRoundTrip` | src/config-qr.ts:26-47 | The frames scanned in any order with repeats and in time give exactly the payload exactly at the scans by which all were seen |
| `AccountMigration.MergeLegacyAccounts` | src/account-migration.ts:38-63 | The loop equals its specification, and `changed` holds if and only if the result differs from the input |
| `AccountMigration.CurrentIsKept` | src/account-migration.ts:42-61 | Current accounts stay in order as a prefix; no password is overwritten; only a missing default may be set |
| `AccountMigration.LegacyIsPresent` | src/account-migration.ts:44-58 | Every legacy user is present and has nothing left to give |
| `AccountMigration.UsersOnce` | src/account-migration.ts:44-58 | With distinct current users the merged users are distinct and none comes from elsewhere |
| `AccountMigration.OneDefault` | src/account-migration.ts:47-61 | With at most one default before, a merged list that is not empty has exactly one |
| `AccountMigration.DefaultIs` | src/account-migration.ts:47-61 | The default after the merge is the one before; without one the first new entry that asks for it; if none asks, the first account |
| `AccountMigration.NewAccountIs` | src/account-migration.ts:45-55 | A new account is disabled, and marked as having a password, exactly as its first entry says, and has the first password listed for it |
| `AccountMigration.MergeTwice` | src/account-migration.ts:38-63 | Merging the same accounts again changes nothing |
| `AccountMigration.PasswordsSurvive` | src/account-migration.ts:44-58 | For every legacy list, repeated users included, a legacy password is carried over if and only if the account had it already, or had none and it is the first password the list has for its user |
| `AccountMigration.ConflictIff` | src/account-migration.ts:65-75 | A conflict is reported for an entry if and only if it has a password and its account keeps one in the system's store or has one the merge will not give up |
| `AccountMigration.LostWithoutConflictIff` | src/account-migration.ts:65-75 | Without a reported conflict a legacy password is lost if and only if the account had none and another password for its user comes first |
| `AccountMigration.DuplicateLosesPassword` | src/account-migration.ts:69-74 | An instance: of two passwords for one new user the second is lost without a reported conflict |
| `CustomSelectIndex.ScanFinds` | src/custom-select.ts:105-119 | A linear scan finds exactly the options with the value |
| `CustomSelectIndex.CustomSelect.PrepareOptions` | src/custom-select.ts:105-119 | The index built agrees with the scan for every value, and the marks with the current value |
| `CustomSelectIndex.CustomSelect.SetValue` | src/custom-select.ts:193-205 | Through the index, exactly the options with the new value end up marked, and the trigger text follows |
| `CustomSelectIndex.CustomSelect.SetOptions` | src/custom-select.ts:214-232 | Rebuilt or not, the options, the value kept and the marks come out the same |
| `CustomSelectIndex.KeptIs` | src/custom-select.ts:215 | A new list keeps the value if some option has it, and otherwise selects its first option |
| `CustomSelectIndex.LabelIs` | src/custom-select.ts:203-204 | The trigger shows the text of the last option with the value, or the value itself |
| `CustomSelectMenus.SelectPage.Open` | src/custom-select.ts:65-104 | Opening closes the recorded menu and cancels the timer that would hide this one |
| `CustomSelectMenus.SelectPage.CloseMenu` | src/custom-select.ts:21-38 | Closing forgets the record and leaves the list visible until its timer fires |
| `CustomSelectMenus.RunsKeepExclusive` | src/custom-select.ts:21-104 | After any events over any number of controls at most one menu is open, and it is the recorded one, enabled, visible and without a hide timer |
| `CustomSelectMenus.ClickToggles` | src/custom-select.ts:136-139 | A click on an enabled control opens its menu or closes it and closes any other that is open; on a disabled one it does nothing |
| `CustomSelectMenus.OnlyOpenIsVisible` | src/custom-select.ts:33-37 | After any events, once all timers have fired exactly the open menu is visible |
| `NetworkExperience.HealthPanel.RenderHealth` | src/network-experience.ts:141-147 | A late report is dropped, with the program's treatment of missing generations, probes and times |
| `NetworkExperience.NeverBack` | src/network-experience.ts:121-147 | Through reports, resets, clears and state changes, generation and probe never go back and the report shown is of the current ones |
| `NetworkExperience.ResetIsFloor` | src/network-experience.ts:128-131 | Nothing of an earlier generation or probe than a reset is shown after it, whatever happens next |
| `NetworkExperience.ShownWasDelivered` | src/network-experience.ts:128-147 | A report on screen was delivered, and since then neither cleared nor overtaken by a reset |
| `NetworkExperience.ShowsGreatest` | src/network-experience.ts:141-147 | Complete reports in any order and with repeats leave one on screen that none exceeds |
| `NetworkExperience.OrderDoesNotMatter` | src/network-experience.ts:141-147 | What is shown does not depend on the order of delivery |
| `NetworkExperience.GoesBackIff` | src/network-experience.ts:143-144 | Within one probe the time shown goes back if and only if the report shown lacks its generation or probe |
| `NetworkExperience.HealthPanel.RenderState` | src/network-experience.ts:121-126 | After a change of network only a report that matches the new one stays on screen |
| `NetworkExperience.NetworkChange` | src/network-experience.ts:121-126 | When another network is told than before, a report stays if and only if it is of the new adapter and lists the new address |
| `NetworkExperience.FirstNetworkKeeps` | src/network-experience.ts:121-126 | The first network told takes nothing off the screen |
| `NetworkProgress.ProgressView.RenderProgress` | src/network-progress-view.ts:25-42 | Late progress is dropped; a new check starts the bar again |
| `NetworkProgress.ShownInOrder` | src/network-progress-view.ts:25-54 | Progress shown is strictly later each time, and with percentages below 100 the bar is at 100 exactly when the current check was reported complete |
| `NetworkProgress.ShownIffLatest` | src/network-progress-view.ts:25-27 | In every run progress is shown if and only if it is strictly later than everything delivered before, shown or not |
| `NetworkProgress.NewCheckStartsAgain` | src/network-progress-view.ts:28-35 | A later check starts the bar at what it reported |
| `NetworkProgress.CreepsUpToCeiling` | src/network-progress-view.ts:48-51 | Until the next report the bar can stand anywhere from what was reported up to 12 beyond, short of 96, and nowhere else |
| `NetworkProgress.BarNeverMovesBack` | src/network-progress-view.ts:44-54 | While one check is shown the bar never moves back |

## Left out

- Instants: `Date` is limited to 8.64e15 ms and drops fractions of a millisecond toward zero; the model has no limit and floors window bounds to whole seconds.
- Rows with numbers that are not finite, which the program filters out, cannot be written in the model.
- Curve names and their order (`localeCompare` in zh-CN): curves come in the order of their first row.
- IEEE-754 rounding of megabytes, percentages and `parseBillingCents`: reals and integers are exact.
- Month-to-date readings are stated for windows from the year 100 on.
- A month grid over more than 5000 months is cut by the cap; the statement about the grid says so.
- Alipay attempts are counted from the act that remembers or restores an order; reopening its page does not reset the program's counter either.
- Alipay and WeChat: opening the payment page, QR codes, relay sessions, account and amount validation of a new order, texts and progress bars.
- At most one transfer for a WeChat order: its error path keeps the order after a definite rejection on purpose.
- The fee of a top-up is any whole number of ten-thousandths; finding it in a package's name or description (`packageMonthlyFeeTenThousandths`) is a search for fixed Chinese words and is not modelled, nor is the choice of payer and target.
- Products beyond 2^53 in the amount parser are exact here and rounded in the program.
- Router: the summary query over all uplinks (`refreshSummary`), actions with a ticket and the re-picking of an account that disappears while one is held, the texts of the composed page, and progress messages.
- RouterScope: `JSON.stringify` of an update is taken to be equal exactly for equal updates.
- RouterRecords.QueryRecords: the formatting of cells, and the merging of columns of the same name in a row object.
- CaptchaQueue: the contents of a dialog and the answer to it.
- ConfigQr: SHA-256, JSON and the clock; `ConfigQrRuns.AnyOrderRoundTrip` assumes all scans within ten minutes of the first.
- CustomSelectIndex.CustomSelect.SetOptions: options marked `aria-disabled` in the page, keyboard highlight and scrolling.
- CustomSelectMenus: where a menu is placed, and events that close it, which are all the one event `Close`.
- NetworkExperience: drawing, the adapter list and the schedule; a missing interface name and an empty one are the same.
- NetworkProgress: the timers that repaint and hide the panel; `1 - exp(-t / 1800)` is any fraction from 0 up to 1.
- Decoding of stored legacy accounts and the fingerprint of credentials.
- Csv: the printing of numbers and dates; characters are code points rather than UTF-16 units.
- The backend, the Android bridge, the network, encryption of backups, and all drawing code.
