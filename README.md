# KidsHealthyMe client core, modelled in Dafny

KidsHealthyMe is a school health-and-habits web client. Students log a daily
health record through a three-step form, take a 20-question health quiz, open
a daily mystery box, redeem coins for shop rewards, and appear on a class
leaderboard. Parents see a report of their child's logs. Teachers use a
dashboard to bulk-import quiz questions, search the quiz pool, watch today's
sickness notes, tally moods and manage rewards. Every datum lives in a remote
store reached through one JSONP call.

This project models the decision logic of that client:

- `common.dfy`: `Option`, `Result`, counting and filtering over sequences.
- `js_string.dfy`: the JavaScript string built-ins the code relies on.
  These are `trim`, `split`, `join`, ASCII `toLowerCase`, `includes`,
  `parseInt` and `String(n)`. Their round trips are proved.
- `types.dfy`: the records of `types.ts` and the per-user log filter.
- `db_service.dfy`: how `services/dbService.ts` turns a call's fate into a
  value or an error. The transport is described by the requested URL's
  length and a `Delivery`: a reply, a timeout, or a failed script load.
- `mini_game.dfy`: the quiz session as a class (`HealthQuiz`).
- `student_home.dfy`: the daily gates, the spend rules and the page's state
  (`Page`).
- `leaderboard.dfy`: the podium and table split of the ranking.
- `health_log_form.dfy`: the wizard (`Wizard`), the sleep duration and the
  BMI bands.
- `admin_dashboard.dfy`: the bulk importer and its chunked upload, the quiz
  search, sickness alerts, the mood tally, the redemption counts and the
  reward form (`Dashboard`).
- `parent_home.dfy`: the parent report.
- `app.dfy`: the session shell and its guarded routes (`Session`).
- `login.dfy`: the sign-in page (`LoginPage`).

Where the code departs from what it evidently intends (its own comments,
messages and the behaviour of neighbouring handlers), the model follows the
code:

- A saved health log whose reply has `success === false` is rejected inside
  the call. It reaches the `catch` (error alert, form left open), not the
  `!result.success` branch.
- `checkConnection` yields `null`, not `false`, for a `null` reply.
- The mystery box is refused locally only when an avatar is loaded. With no
  avatar the store is called anyway.
- The daily gates compare UTC day keys (`toISOString`), not local days. The
  key function is a parameter here (`dayOf`).
- The daily gates are meant to fail closed, so that a student cannot log or
  open the box twice in a day. The code fails open: a failed or `null` log or
  box-log fetch reads as "not yet today" (`StudentHome.GatesFailOpen`).
- `components/MiniGame.tsx:75` calls `dbService.awardRandomCard`, but
  `services/dbService.ts` defines no such member. As written, the call throws
  a `TypeError`, the `catch` at `components/MiniGame.tsx:79-81` swallows it,
  and no card is ever awarded. The model's `award` parameter stands for the
  intended reply. With the code as written it is always `Err`, `awardedCard`
  stays `None`, and `TriggerReveal` and `FinishReveal` are never reachable.

## Model

| member | source | states |
|---|---|---|
| DbService.ErrorMessage | services/dbService.ts:28-61 | every way a call can reject carries a non-empty message; an empty server message becomes the default text |
| DbService.CallJSONP | services/dbService.ts:21-68 | a URL over 8000 characters fails without a reply; a resolved call returns the reply it received, and never one whose `success` is `false` |
| DbService.ReplyRejectsIffExplicitFalse | services/dbService.ts:37-44 | a delivered reply rejects exactly when `success === false`, carrying its message or the default; `null` and replies without `success` resolve |
| DbService.CheckConnection | services/dbService.ts:12-19 | true exactly for a delivered reply with `success === true`; `null` exactly for a `null` reply; false on every rejection |
| DbService.Login | services/dbService.ts:76-79 | the user is returned exactly when the reply has a truthy `success` and a user; a rejection comes back exactly when the call rejects, with the same error |
| DbService.Register | services/dbService.ts:71-74 | any object reply that is not rejected gives exactly the submitted fields with the reply's `userId` as id and the student role; a rejection propagates unchanged; a `null` reply throws on reading `userId` |
| DbService.GetAvatar | services/dbService.ts:81-98 | with a truthy `success` every field is mapped, streak defaulting to 0 and the emoji to the astronaut; any other outcome, an over-long URL included, gives the initial avatar |
| DbService.GetList | services/dbService.ts:100-107 | a non-empty result is exactly the list field of a delivered, non-rejected reply |
| DbService.GetListFailsOpen | services/dbService.ts:121-128 | a rejection, a `null` reply or a missing field all read as the empty list |
| DbService.GetListDelivers | services/dbService.ts:193-200 | a delivered list is returned unchanged |
| DbService.ActOn | pages/StudentHome.tsx:178-188 | a handler refreshes exactly on a truthy `success`, and alerts exactly on a rejection or a `null` reply |
| Types.LogsOf | pages/StudentHome.tsx:60 | only the user's own logs are kept, and no more of them than there were logs |
| Types.LogsOfExact | pages/ParentHome.tsx:28 | a log is kept exactly when it belongs to the user; the filter distributes over concatenation, so order is kept |
| Types.MoodCountSnoc | pages/AdminDashboard.tsx:121 | one more log adds one to a mood's count exactly when it has that mood |
| MiniGame.Grades | components/MiniGame.tsx:56-57 | question `i` is right exactly when the pick equals `parseInt` of its answer |
| MiniGame.ScoreBounds | components/MiniGame.tsx:56-61 | the score never exceeds the number of answers, and equals it exactly when all are right |
| MiniGame.ScoreStep | components/MiniGame.tsx:59-61 | one more answer raises the score by one exactly when it is right |
| MiniGame.CardNeedsPerfectTwenty | components/MiniGame.tsx:69-73 | a score of 20 or more happens exactly for a 20-question session answered completely and correctly |
| MiniGame.ExpReward | components/MiniGame.tsx:177 | experience is ten per right answer, a multiple of ten |
| MiniGame.CoinReward | components/MiniGame.tsx:181 | coins are half the right answers, rounded down |
| MiniGame.SessionRewardBounds | components/MiniGame.tsx:177-181 | a session pays at most 200 experience and 10 coins, and a perfect 20 pays exactly that |
| MiniGame.HealthQuiz.constructor | components/MiniGame.tsx:14-23 | a fresh quiz is idle with no questions, no score and no card |
| MiniGame.HealthQuiz.StartQuiz | components/MiniGame.tsx:25-49 | an empty pool changes nothing; otherwise the session is the first min(N, 20) shuffled questions, drawn from the pool, and every counter is reset |
| MiniGame.HealthQuiz.Answer | components/MiniGame.tsx:51-61 | an answered question ignores further clicks; otherwise the pick is recorded and the score rises by one exactly when it is right |
| MiniGame.HealthQuiz.Advance | components/MiniGame.tsx:63-84 | before the last question it moves on and clears the selection; on the last it shows the result and requests a card exactly on a perfect 20, keeping it only on a successful award |
| MiniGame.HealthQuiz.TriggerReveal | components/MiniGame.tsx:87-88 | an awarded card's reveal moves from idle to shaking |
| MiniGame.HealthQuiz.FinishReveal | components/MiniGame.tsx:89-91 | shaking moves to revealed |
| MiniGame.HealthQuiz.Experience | components/MiniGame.tsx:186 | the experience handed to `onEnd` is at most ten per question and at most 200 |
| StudentHome.FirstOnDay | pages/StudentHome.tsx:63-65 | a hit is an element dated today |
| StudentHome.FirstOnDayFirstHit | pages/StudentHome.tsx:63-67 | no hit exactly when every date is valid and none is today; a hit is the first element dated today |
| StudentHome.FirstOnDayValidDates | pages/StudentHome.tsx:69-72 | with valid dates the scan cannot throw, and it hits exactly when some element is dated today |
| StudentHome.GatesFailOpen | pages/StudentHome.tsx:60-72 | when the log or box-log fetch fails or is empty-handed, both gates read "not yet today" |
| StudentHome.EquipTarget | pages/StudentHome.tsx:100-102 | choosing the worn item sends the empty id (unequip); any other item is sent as is |
| StudentHome.CoinsShown | pages/StudentHome.tsx:398 | the coins compared with a price are the avatar's, or zero while none is loaded |
| StudentHome.RedeemRefused | pages/StudentHome.tsx:165 | without an avatar every redemption is refused; with one, exactly when its coins are below the cost |
| StudentHome.RedeemEnabled | pages/StudentHome.tsx:398 | an enabled redeem button implies the reward is in stock |
| StudentHome.RedeemEnabledVersusRefused | pages/StudentHome.tsx:164-168 | with an avatar loaded, an enabled button is never refused; without one, an enabled button is refused exactly for a free reward in stock |
| StudentHome.Redeem | pages/StudentHome.tsx:164-189 | refused without a call exactly when no avatar or too few coins; the store is called exactly when affordable and confirmed, and the reply is handled by the shared rule: refresh exactly on a truthy `success`, an alert exactly on a rejection or a `null` reply |
| StudentHome.ExpBarTarget | pages/StudentHome.tsx:246 | the bar's target is a non-zero multiple of 100: 100 times the level, or 100 without a level |
| StudentHome.Page.constructor | pages/StudentHome.tsx:27-36 | the page starts with nothing loaded and both gates open |
| StudentHome.RefreshGates | pages/StudentHome.tsx:60-72 | an invalid date before a hit in the log scan leaves every gate as it was; otherwise the log gate holds exactly when a log is dated today (with valid dates: exactly when some log is), that log is kept, and the box gate follows the box scan unless it throws |
| StudentHome.Page.RefreshData | pages/StudentHome.tsx:42-79 | the avatar and lists are stored and only the user's own logs kept; the gates become those of a refresh from the previous ones |
| StudentHome.Page.SetLogs | pages/StudentHome.tsx:60-72 | the user's logs are stored and the gates recomputed, keeping the page's invariant that today's log is the user's |
| StudentHome.Page.OpenLogForm | pages/StudentHome.tsx:282-283 | the form opens only while today is not logged |
| StudentHome.Page.OpenBoxDialog | pages/StudentHome.tsx:303-304 | the box dialog opens only while today's box is unopened |
| StudentHome.Page.HandleHealthSave | pages/StudentHome.tsx:81-98 | a rejection or `null` reply gives the error alert with the form left open; any other reply closes the form, with a refresh exactly on a truthy `success` |
| StudentHome.Page.HandleOpenBox | pages/StudentHome.tsx:136-162 | nothing once opened today; refused exactly when a loaded avatar has under 20 coins; otherwise the store decides and the dialog closes |
| Leaderboard.Top3 | components/Leaderboard.tsx:23 | the first min(3, n) rows, unchanged |
| Leaderboard.Rest | components/Leaderboard.tsx:24 | the rows after the third, unchanged and in order |
| Leaderboard.SplitIsExact | components/Leaderboard.tsx:23-24 | podium and table together are the fetched list in order |
| Leaderboard.Table | components/Leaderboard.tsx:114-128 | row `i` of the table is ranked `i + 4` and highlighted exactly when it is the current user's |
| Leaderboard.Render | components/Leaderboard.tsx:48-145 | spinner exactly while loading; the empty message exactly for no rows; a podium slot is filled exactly when that row exists; the footer exactly for more than 5 rows |
| Leaderboard.RankIsPosition | components/Leaderboard.tsx:60-128 | every fetched row is shown once, under its 1-based position |
| Leaderboard.TableRanksIncrease | components/Leaderboard.tsx:114-120 | the table's ranks start at 4 and strictly increase |
| HealthLogForm.SleepMinutes | components/HealthLogForm.tsx:65-71 | for clock times the duration is under a day and leads from bedtime to wake-up modulo a day; the plain difference when wake-up is later |
| HealthLogForm.SleepMinutesUnique | components/HealthLogForm.tsx:65-71 | the sleep duration is the only duration under a day from bedtime to wake-up |
| HealthLogForm.BmiCategory | components/HealthLogForm.tsx:81-86 | the four bands are exactly below 15, 15 to 22, 22 to 25, and 25 up |
| HealthLogForm.BmiCategoryMonotone | components/HealthLogForm.tsx:81-86 | a larger BMI never gets a lighter band |
| HealthLogForm.Wizard.constructor | components/HealthLogForm.tsx:14-42 | the form starts on step 1 with every mission answered yes and the default answers; the BMI effect on mount replaces the default 17.8 by the computed value, since the default height and weight are positive |
| HealthLogForm.Wizard.Back | components/HealthLogForm.tsx:301-304 | back moves one step down and is offered only after step 1 |
| HealthLogForm.Wizard.Next | components/HealthLogForm.tsx:311-313 | next moves one step up and is offered only before step 3 |
| HealthLogForm.Wizard.SetMission | components/HealthLogForm.tsx:160-166 | a mission's yes/no button sets that mission and keeps the other nine |
| HealthLogForm.Wizard.RecomputeBmi | components/HealthLogForm.tsx:37-41 | the BMI is replaced only when height and weight are both positive |
| HealthLogForm.Wizard.SetHeight | components/HealthLogForm.tsx:119 | a new height, with the BMI effect applied |
| HealthLogForm.Wizard.SetWeight | components/HealthLogForm.tsx:128 | a new weight, with the BMI effect applied |
| HealthLogForm.Wizard.Submit | components/HealthLogForm.tsx:73-79 | the record handed over is the form as it stands, with the user's id and a sleep duration under a day |
| AdminDashboard.ParseLine | pages/AdminDashboard.tsx:82-85 | a line yields a question exactly when it has six fields or more; its icon is never empty |
| AdminDashboard.ParseFields | pages/AdminDashboard.tsx:84-85 | trimmed fields make a question exactly when there are six or more: the question and the four options are the first five fields, the answer is `parseInt` of the sixth, and the icon is a non-empty seventh field, otherwise ❓ |
| AdminDashboard.NonBlankLines | pages/AdminDashboard.tsx:80 | every surviving line is non-blank and holds no line break |
| AdminDashboard.ParseLines | pages/AdminDashboard.tsx:82-86 | at most one question per line, each the parse of some line; every line yields one exactly when every line has six fields or more |
| AdminDashboard.ParseAllAppend | pages/AdminDashboard.tsx:82 | the per-line results of two blocks of lines are those of each block in turn |
| AdminDashboard.ParseLinesSingle | pages/AdminDashboard.tsx:82-86 | one line gives its question, or nothing below six fields |
| AdminDashboard.ParseLinesAppend | pages/AdminDashboard.tsx:82-86 | parsing distributes over the lines, so order is kept and nothing is merged |
| AdminDashboard.ShowAnswerRoundTrip | pages/AdminDashboard.tsx:85 | `parseInt` reads back the written answer, `NaN` included |
| AdminDashboard.ParseFormatLine | pages/AdminDashboard.tsx:82-85 | a well-formed question written as a line is read back unchanged |
| AdminDashboard.ParseLinesFormatted | pages/AdminDashboard.tsx:82-86 | well-formed questions written one per line are read back in order |
| AdminDashboard.ParseBulk | pages/AdminDashboard.tsx:80-86 | every imported question is the parse of a non-blank line of the box and has an icon; no more questions than non-blank lines |
| AdminDashboard.ParseBulkRoundTrip | pages/AdminDashboard.tsx:80-86 | the whole import box, written from well-formed questions, is imported back unchanged |
| AdminDashboard.Chunks | pages/AdminDashboard.tsx:92-94 | every slice holds one to five questions, all but the last exactly five |
| AdminDashboard.FlattenChunks | pages/AdminDashboard.tsx:92-94 | the slices cover the question list exactly, in order |
| AdminDashboard.Upload | pages/AdminDashboard.tsx:88-95 | the slices sent are a prefix of all slices; all are sent and succeed exactly when every call resolves; a failure stops after the failing slice |
| AdminDashboard.FilteredQuiz | pages/AdminDashboard.tsx:142-152 | an empty term keeps the whole pool; otherwise the result is drawn from the pool |
| AdminDashboard.FilteredQuizAppend | pages/AdminDashboard.tsx:142-152 | the search keeps the pool's order: it distributes over concatenation |
| AdminDashboard.FilteredQuizSingle | pages/AdminDashboard.tsx:142-152 | one question is kept exactly when the term is empty or the question matches it |
| AdminDashboard.FilteredQuizExact | pages/AdminDashboard.tsx:145-151 | with a term, a question is kept exactly when its text or an option contains the lower-cased term |
| AdminDashboard.FilteredQuizIgnoresCase | pages/AdminDashboard.tsx:144 | the search gives the same result for a term and its lower-case form |
| AdminDashboard.SicknessAlerts | pages/AdminDashboard.tsx:104-110 | defined exactly when every date is valid; then the list is the logs dated today with a non-blank sickness note, in order and with repeats, so its length is the count shown |
| AdminDashboard.TallyAtMostLogs | pages/AdminDashboard.tsx:112-123 | the four mood counters never add up to more than the number of logs |
| AdminDashboard.CountMoods | pages/AdminDashboard.tsx:114-122 | the loop ends with each counter equal to the number of logs with that mood |
| AdminDashboard.PendingCount | pages/AdminDashboard.tsx:314 | the pending count is at most the number of redemptions |
| AdminDashboard.PendingPlusCompleted | types.ts:63 | every redemption is pending or completed, so the two counts add up to all |
| AdminDashboard.RewardFormValid | pages/AdminDashboard.tsx:156 | a form is saved exactly when it has a title and a cost that is present and not zero; the blank form is refused |
| AdminDashboard.RewardFormValidCases | pages/AdminDashboard.tsx:156 | an empty title, or a cost that is missing or zero, is refused; a negative cost passes |
| AdminDashboard.Dashboard.constructor | pages/AdminDashboard.tsx:28-31 | the reward form starts empty with cost 50 and stock 10, not in edit mode |
| AdminDashboard.Dashboard.HandleBulkAddQuiz | pages/AdminDashboard.tsx:79-101 | nothing happens exactly for blank input; otherwise the parsed questions go out in slices of five, and the box is cleared exactly when every slice was accepted; after a refusal, the slices sent are a prefix whose last slice was refused and whose earlier slices were all accepted, and the box keeps every line |
| AdminDashboard.Dashboard.EditReward | pages/AdminDashboard.tsx:174-178 | the form takes the chosen reward, id included, and edit mode is on |
| AdminDashboard.Dashboard.CancelEdit | pages/AdminDashboard.tsx:516 | cancelling an edit restores the empty form and leaves edit mode |
| AdminDashboard.Dashboard.HandleSaveReward | pages/AdminDashboard.tsx:155-172 | an incomplete form is refused without a call; the form is reset and edit mode left exactly on a truthy `success` |
| ParentHome.LevelShown | pages/ParentHome.tsx:89 | the avatar's level, or 1 without an avatar or with level 0 |
| ParentHome.CoachRequest | pages/ParentHome.tsx:32-42 | the coach is asked exactly when there is a log, about the last one, with the full history and the level shown |
| ParentHome.Load | pages/ParentHome.tsx:23-44 | the page keeps exactly the child's logs, and consults the coach exactly when the child has one |
| ParentHome.FeedbackShown | pages/ParentHome.tsx:104 | the coach's answer when there is one, otherwise exactly the invitation to start logging; never empty |
| ParentHome.ChartWindow | pages/ParentHome.tsx:53-58 | the chart shows the last min(7, n) logs, oldest first |
| ParentHome.ChartWindowSlides | pages/ParentHome.tsx:53-58 | a new log becomes the last point and pushes the oldest out of a full window |
| ParentHome.MoodData | pages/ParentHome.tsx:60-65 | at most four slices, none of them empty |
| ParentHome.MoodDataExact | pages/ParentHome.tsx:60-65 | a mood's slice is shown exactly when some log has that mood, with that mood's count |
| ParentHome.MoodDataOrdered | pages/ParentHome.tsx:60-64 | the slices keep the order happy, normal, sad, angry |
| ParentHome.MoodDataTotal | pages/ParentHome.tsx:60-65 | the slices add up to the number of logs with one of the four moods |
| App.HomeRoute | App.tsx:56-60 | no user goes to `/login`; an admin to `/admin` whatever the view; others get the parent page exactly in the parent view, the student page otherwise |
| App.AdminRoute | App.tsx:64-67 | the dashboard exactly for an admin, `/login` for everyone else |
| App.NavbarShown | App.tsx:47 | the navigation bar shows exactly while a user is signed in |
| App.RoutesAgree | App.tsx:56-67 | an admin sent from `/home` to `/admin` is admitted there; a signed-in non-admin refused `/admin` has a home page |
| App.Session.constructor | App.tsx:14-15 | nobody is signed in and no view is chosen |
| App.Session.HandleLogin | App.tsx:28-35 | the user is always set; the view changes only when a mode is given |
| App.Session.HandleLogout | App.tsx:37-42 | user and view are cleared, so both routes lead to `/login` |
| Login.InitialMode | pages/Login.tsx:23-25 | the query's mode when present and non-empty, `student` otherwise |
| Login.RequestedView | pages/Login.tsx:78 | the parent view exactly for the parent mode; student and admin modes give the student view |
| Login.SubmitDisabled | pages/Login.tsx:208 | disabled exactly while loading or when the connection is known to be down; unknown counts as enabled |
| Login.FailureMessage | pages/Login.tsx:84 | the alert text is the error's own message, which is never empty |
| Login.Decide | pages/Login.tsx:69-85 | admin/1722 wins before any call; otherwise sign-in exactly for a returned user, refusal for none, failure for a rejection |
| Login.AdminBypassOpensDashboard | pages/Login.tsx:69-73 | the built-in admin account is admitted to the dashboard, and its `/home` leads there |
| Login.SignedInHome | pages/Login.tsx:76-79 | after a remote sign-in, `/home` is the parent page exactly in parent mode for a non-admin account |
| Login.LoginPage.constructor | pages/Login.tsx:16-25 | the page starts idle, without error, connection unknown, in the initial mode |
| Login.LoginPage.CheckConnection | pages/Login.tsx:31-37 | the error is cleared and the probe's answer recorded |
| Login.LoginPage.HandleLogin | pages/Login.tsx:64-113 | the store is called exactly without the admin credentials; the session changes exactly on a sign-in; a refusal or failure sets its message; loading ends false |

## Left out

- All markup, styling, animations and alert dialogs. The 1200 ms and 1500 ms quiz timers are the explicit steps `Advance` and `FinishReveal`.
- The JSONP transport: callback registration, script injection, the 30-second timer and clean-up. A call is its URL length and its `Delivery`.
- Building the URL and its length. `urlLength` is a parameter, as is `resolves` for each upload slice of the bulk import.
- Randomness: the quiz shuffle is the parameter `shuffled`, and the mystery-box pick is the parameter `pick`.
- The clock and `toISOString`: the day key is the parameter `dayOf`, and `today` is given.
- Floating point: the BMI quotient and its `toFixed(1)` rounding enter as a computed `bmiValue`. The sleep duration is kept in minutes, not rounded hours. The chart's number coercions, `expPercentage` and the research tab's BMI bins are not modelled.
- The AI coach (`getAICoachFeedback`): only the request is modelled, and its answer is a string.
- Local storage persistence and restore in `App.tsx`.
- The catalogue constants of `constants.ts` (`INITIAL_AVATAR`, `ITEMS_SHOP`): the initial avatar is a parameter.
- `awardRandomCard`: the store has no such call, so its result is the parameter `award`, which stands for the intended reply (see the departures above).
- HealthLogForm.SleepMinutes: an emptied time field makes `sleep_hours` `NaN` in the source (`components/HealthLogForm.tsx:65-70`). A `Clock` always holds two numbers, so that case is not modelled.
- `Number(...)` and `NaN` coercions of store fields: numbers arrive as integers, and `None` stands for `NaN` or an empty field.
- Lower-casing outside ASCII.
- The transient flags `loading`, `savingHealth`, `syncing` and `checkingConn`, and plain field setters (mood, water, steps, sleep times, exercise, sickness).
- `handleChangeBaseEmoji` (`pages/StudentHome.tsx:122-134`): its reply handling is the shared `DbService.ActOn` rule.
- `handleUpdateRedemptionStatus` (`pages/AdminDashboard.tsx:200-206`): it never reads `success`. Any resolved reply, a falsy or `null` one included, gives the success toast and a refresh. Only a rejection alerts.
- `handleDeleteQuiz` (`pages/AdminDashboard.tsx:208-214`): after the confirmation, any resolved reply refreshes. It has no `try`, so a rejection goes unhandled and shows no alert.
- AI question generation (`pages/AdminDashboard.tsx:59-76`): it calls the Gemini service, not the store. It needs a non-blank topic, appends a non-empty answer to the import box on a new line, and alerts on an error.
- Leaderboard.Table: assumes every row has a `user_id`. In the source, a row without one is highlighted when no current user id is given, since both sides are `undefined`.
- Login.InitialMode: an unrecognised mode string is kept as is. The theme lookup that would then fail is presentation and is not modelled.
- Login.AdminUser: the fields the source leaves undefined are empty strings.
- The 30-second timeout is not distinguished from other transport failures beyond its message.
