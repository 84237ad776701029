# planobs trigger planning and queue, in Dafny

planobs plans follow-up observations of neutrino and optical alerts with the
Zwicky Transient Facility (ZTF) and submits them as target-of-opportunity
(ToO) triggers to the Kowalski trigger service. This project models the parts
of planobs that decide what gets queued and how commands are read:

- the local trigger **queue** and its calls to the service (`planobs/api.py`);
- the pydantic request **models**: target, validity window and request
  (`planobs/models.py`), and the sky **position** (`planobs/models/position.py`);
- the ZTF and IceCube **name recognisers** and `short_time` (`planobs/utils.py`);
- the **multi-day plan** assembly: the nights 1, 2, 3, 5, 7 and 9, the summary
  text and the trigger list, and `print_triggers` (`planobs/multiday_plan.py`);
- the Slack bot's **command handling**: `fuzzy_parameters`, the flag scan of a
  `Plan` command and the duplicate-message filter (`slackbot_server.py`).

Modules, one file each: `Wrappers` (Option, Result, Outcome), `Text`
(the Python string behaviour the code relies on: slicing, `str(int)`,
`str.join`), `Models`, `Positions`, `Utils`, `Api`, `MultidayPlan` and
`SlackbotServer`.

Modelling choices:

- The Kowalski service is a class `Api.Kowalski` that answers the n-th call
  with `reply(n)` and logs every request in `sent`. The queue's methods are
  proved against that log and those replies.
- `Queue.__init__` can raise, so it is the method `Api.Open`, which returns a
  `Result`. The queue is a `map<int, Trigger>` plus the insertion order of its
  keys, which is how a Python dict iterates.
- pydantic reports every failing field at once. The constructors of the models
  therefore return the set of failing fields.
- A regular expression becomes a predicate that follows its alternatives. It is
  then proved equal to a plain description, such as "a calendar date YYMMDD
  under the two-digit leap-year rule". Python's `$` also matches before one
  final newline, and the model keeps that.
- The multi-day plan takes the per-night windows as input, because gathering
  them needs the single-night planner. Each band loop is a method proved
  against a function over the first k nights.
- The flag scan is one pass per group of words, as in the source. Each pass
  is `AnyTokenIn`, proved to find exactly the tokens that are fuzzy variants of
  the group's words.
- `submit_queue` raises on the first failed PUT and returns nothing, so the
  answers received before the failure are lost. The model follows that code
  (`planobs/api.py` lines 190-199).
- A `Plan` command can raise before anything is posted. This happens when a
  value flag (`-ra`, `-dec`, `-date`, `-airmass`, `-site`) is the last token, or
  when `float()` rejects the value after `-ra`, `-dec` or `-airmass`. It also
  happens for any `-tomorrow` flag, because `datetime.utcnow()` is looked up on
  the `datetime` module, and for any help flag after the name, because the
  help reply calls `get_help_message()` without its `user` argument. The model
  answers these with `Crashed` and the exception, in the order the handler
  meets them. Whether `float()` accepts a string is a parameter, `isFloat`.
- The repository's test calls `add_trigger_to_queue` with `targets=` and the
  name `"TEST"`. `planobs/api.py` has no `targets` parameter and rejects
  `"TEST"`. The model follows `planobs/api.py`.

## Model

| member | source | states |
|---|---|---|
| Text.Take | planobs/api.py:145 | Python `s[:n]`: the first n characters, or the whole string when it is shorter |
| Text.DropLast | planobs/utils.py:66 | Python `s[:-n]` for n >= 1: a prefix n characters shorter, or empty when the string has at most n characters |
| Text.NatToString | planobs/api.py:167 | `str(n)` is a non-empty string of digits that starts with '0' only for 0 |
| Text.NatToStringRoundTrip | planobs/api.py:167 | reading `str(n)` back as a number gives n |
| Text.NatToStringInjective | planobs/api.py:167 | distinct ids have distinct decimal strings |
| Text.ConcatEachThenDropIsJoin | planobs/multiday_plan.py:213-217 | appending line + "\n" for each line and dropping the last character equals "\n".join of the lines, including "" for no lines |
| Models.NewTooTarget | planobs/models.py:13-46 | a target is built exactly when request_id >= 0, filter_id and program_id are in [1, 2, 3] and 0 <= exposure_time <= 600; on failure each of these fields is reported exactly when it fails; defaults are 1, "ToO_Neutrino", "Kulkarni", 2 and 30 s |
| Models.TargetRoundTrip | planobs/models.py:13-46 | rebuilding a valid target from its fields gives the same target |
| Models.TargetDefaults | planobs/models.py:18-27 | with only field and filter given, the target is valid exactly for a ZTF filter and carries the documented defaults |
| Models.ValidityWindow.Export | planobs/models.py:70-74 | export returns [start_mjd, end_mjd] |
| Models.NewValidityWindow | planobs/models.py:49-68 | a window exists exactly when end_mjd > start_mjd and keeps both values |
| Models.ExportRoundTrip | planobs/models.py:49-74 | a window built from the export of a valid window is that window |
| Models.QueueNameAccepted | planobs/models.py:90-98 | check_queue_name accepts exactly the names starting with "ToO_" or "TEST_" |
| Models.RequestValidation | planobs/models.py:85-98 | the queue name fails unless it starts with "ToO_" or "TEST_"; the window fails unless it has exactly two items; the targets fail when there are none |
| Models.NewTooRequest | planobs/models.py:77-98 | a request is built exactly when no field fails, with queue_type "list" by default; otherwise every failing field is reported |
| Models.WindowExportMakesRequest | planobs/models.py:70-98 | an accepted queue name, an exported window and one target make a valid request with queue_type "list" |
| Positions.Abs | planobs/models/position.py:59-63 | abs(): non-negative and equal to the value or its negation |
| Positions.MinusValidator | planobs/models/position.py:59-63 | a minus error, when given, is replaced by its absolute value; None stays None |
| Positions.NewPosition | planobs/models/position.py:12-19 | construction succeeds exactly when ra is in [0, 360], dec in [-90, 90], ra_err_plus in [0, 360] and dec_err_plus in [0, 90] (when given); the stored minus errors are non-negative absolute values and never fail; each failing field is reported |
| Positions.NegativeMinusErrorsNormalised | planobs/models/position.py:59-63 | a negative minus error gives the same position as its absolute value |
| Positions.FromRectangle | planobs/models/position.py:37-57 | ra and dec are kept; ra_err and dec_err are (plus, minus) pairs; the plus errors are kept, the minus errors made absolute, and the result exists exactly when the ranges hold |
| Positions.FromCircle | planobs/models/position.py:21-35 | ra and dec are kept; the errors are symmetric: radius / cos(dec) in ra and the radius in dec; a result needs a radius in [0, 90] |
| Positions.CircleAtEquator | planobs/models/position.py:21-35 | at dec 0 a radius of 2 gives errors of 2 on every side |
| Positions.GetRectangle | planobs/models/position.py:82-92 | the corners (ul, ur, ll, lr) form an axis-aligned rectangle of width ra_err_plus + ra_err_minus and height dec_err_plus + dec_err_minus, upper left at (ra - ra_err_minus, dec + dec_err_plus) and lower right at (ra + ra_err_plus, dec - dec_err_minus); an unset error gives no rectangle |
| Positions.RectangleContainsCentre | planobs/models/position.py:82-92 | for a valid position the rectangle is ordered and holds (ra, dec) |
| Positions.RectangleOfFromRectangle | planobs/models/position.py:37-57 | the rectangle of a position built from a rectangle has the given errors as its sides |
| Utils.IsZtfName | planobs/utils.py:23-31 | a name is accepted exactly when its first twelve characters match the ZTF pattern and at most one newline follows |
| Utils.ZtfNameParts | planobs/utils.py:23-31 | the ZTF pattern accepts exactly "ZTF", a year from 10 to 29 and seven lower-case letters |
| Utils.ZtfTrailingNewline | planobs/utils.py:28 | a ZTF name followed by one newline is accepted, followed by two it is not |
| Utils.IsIcecubeName | planobs/utils.py:34-46 | a name is accepted exactly when it is "IC", a calendar date YYMMDD and one ASCII letter, with at most one newline after it |
| Utils.LeapYearDigitsIsDivisibleByFour | planobs/utils.py:41 | the year alternative `[02468][048]\|[13579][26]` accepts exactly the two-digit years divisible by four |
| Utils.MonthDayPatterns | planobs/utils.py:41 | the three month/day alternatives accept exactly the valid month and day pairs other than 29 February |
| Utils.IceCubeDateIsCalendarDate | planobs/utils.py:34-46 | the date part accepts exactly the calendar dates YYMMDD, 29 February only in years divisible by four |
| Utils.DatePatternIsDigits | planobs/utils.py:41 | whatever the date part accepts is six digits |
| Utils.IceCubeNameParts | planobs/utils.py:34-46 | an IceCube name is "IC", a calendar date and one ASCII letter |
| Utils.AcceptsDate | planobs/utils.py:34-46 | "IC" + a calendar date + a letter is recognised |
| Utils.TestIceCubeNamesRecognised | tests/test_plan.py:53 | IC220624A and IC220501A are IceCube names |
| Utils.DocstringNameRecognised | planobs/utils.py:36-37 | the docstring example IC201021B is an IceCube name |
| Utils.TestZtfNameRecognised | tests/test_plan.py:36 | ZTF19accdntg is a ZTF name |
| Utils.RejectsNonDate | planobs/utils.py:34-46 | a name whose six date digits are not a calendar date is rejected |
| Utils.LeapDayExamples | planobs/utils.py:41 | 29 February is accepted for 2000 and 2024 and rejected for 2023 |
| Utils.InvalidDateExamples | planobs/utils.py:41 | month 00, month 13 and day 00 are rejected |
| Utils.ShortTime | planobs/utils.py:62-66 | short_time drops the last four characters (".sss") and keeps the prefix |
| Api.HasTooPrefix | planobs/api.py:145-148 | the name check passes exactly for names of at least four characters starting with "ToO_" |
| Api.ShortNamesRejected | planobs/api.py:145-148 | a name shorter than four characters never passes the "ToO_" check |
| Api.QueueName | planobs/api.py:167 | the queue name is trigger name, "_" and the id, and its length is the sum of theirs |
| Api.QueueNameInjective | planobs/api.py:162-167 | a queue name determines the trigger name and the id it was built from |
| Api.TrailingDigitsAfterUnderscore | planobs/api.py:167 | in name + "_" + digits, the trailing digits are exactly the id's digits |
| Api.NewTrigger | planobs/api.py:150-175 | the record carries the user, queue_type "list", the window [start, end], the queue name name_id and one target with the given field, filters, exposure and program; a "ToO_" name keeps its prefix in the queue name |
| Api.NewTriggerWellFormed | planobs/api.py:150-175 | the stored record carries the user, queue_type "list", a two-element window, one target and a "ToO_" queue name made from its id |
| Api.WellFormedIsValidRequest | planobs/api.py:164-175 | a stored record passes the queue-name, window and target checks of TooRequest |
| Api.FirstFailure | planobs/api.py:190-193 | the index of the first non-success answer: all answers before it succeeded |
| Api.FirstFailureIs | planobs/api.py:190-193 | an index before which all answers succeed and at which one fails is the first failure |
| Api.PutRequests | planobs/api.py:184-186 | one PUT per record, carrying that record, in order |
| Api.DeleteRequests | planobs/api.py:205-209 | one DELETE per record with the user and the record's queue name, in order |
| Api.TooOnly | planobs/api.py:79-88 | the kept entries are exactly those flagged is_TOO |
| Api.TooOnlyKeepsOrder | planobs/api.py:84 | the ToO filter distributes over concatenation, so it keeps the service's order |
| Api.TooOnlyIdempotent | planobs/api.py:84 | filtering the ToO entries twice is filtering once |
| Api.Names | planobs/api.py:66-77 | the i-th name is the queue_name of the i-th entry |
| Api.Kowalski.Call | planobs/api.py:184-186 | one request: appended to the log, answered with the reply for its position |
| Api.Open | planobs/api.py:28-52 | no API token fails with MissingToken; a failed ping fails naming the token; otherwise an empty, valid queue for the user |
| Api.Queue.Triggers | planobs/api.py:181 | the records in insertion order |
| Api.Queue.GetTriggers | planobs/api.py:245-249 | the (id, record) pairs in insertion order, with ids 0, 1, 2, ... |
| Api.Queue.constructor | planobs/api.py:28-38 | an empty queue for the user and its client |
| Api.Queue.AddTriggerToQueue | planobs/api.py:127-176 | a name without the "ToO_" prefix fails and leaves the queue unchanged; otherwise the new record gets id len(queue), every earlier record is kept, and the queue stays valid |
| Api.Queue.SubmitQueue | planobs/api.py:178-199 | PUTs the records in order up to and including the first failure; all succeed gives every answer, else SubmitFailed; the local queue is unchanged |
| Api.Queue.DeleteQueue | planobs/api.py:201-220 | sends a DELETE for every record before checking any answer, then fails naming the first record whose answer failed |
| Api.Queue.DeleteTrigger | planobs/api.py:222-236 | one DELETE for the name; the answer, or DeleteTriggerFailed |
| Api.Queue.GetAllQueues | planobs/api.py:54-64 | one GET; the answer on success, else the status and message |
| Api.Queue.GetAllQueuesNameOnly | planobs/api.py:66-77 | one GET; the queue names of all entries |
| Api.Queue.GetTooQueues | planobs/api.py:79-88 | one GET; the ToO entries in order |
| Api.Queue.GetTooQueuesNameOnly | planobs/api.py:90-99 | one GET; the names of the ToO entries in order |
| Api.QueueNamesDistinct | planobs/api.py:162-167 | no two records of a queue share a remote queue name |
| Api.QueuedTriggersAreValidRequests | planobs/api.py:164-175 | every queued record passes TooRequest's checks in planobs/models.py |
| MultidayPlan.NightDays | planobs/multiday_plan.py:75-80 | night n falls n - 1 days after the start date |
| MultidayPlan.NightDaysIncrease | planobs/multiday_plan.py:25-80 | the nights fall on increasing days, from the start date to eight days later |
| MultidayPlan.RequestedBands | planobs/multiday_plan.py:104-118 | a bands argument is passed exactly on the nights after the first |
| MultidayPlan.ExposureTime | planobs/multiday_plan.py:156 | the exposure is 30 s or 300 s |
| MultidayPlan.ScheduleOfNights | planobs/multiday_plan.py:25-156 | night 1 gets 300 s and no bands argument, later nights 30 s; exactly nights 2, 3, 5 and 7 are one-filter nights and ask for g only; night 9 asks for g and r |
| MultidayPlan.ZipLength | planobs/multiday_plan.py:154 | zip stops at the shorter of the window lists and NIGHTS |
| MultidayPlan.GTriggers | planobs/multiday_plan.py:154-171 | at most one g trigger per night, each for the recommended field in filter 1, each from a night with start, end and flag set |
| MultidayPlan.RTriggers | planobs/multiday_plan.py:180-203 | r triggers only from nights outside the one-filter nights: at most one in the first five nights and two in all, filter 2 |
| MultidayPlan.GNights | planobs/multiday_plan.py:154-171 | the indices of the nights with start, end and flag set, strictly increasing, and exactly those |
| MultidayPlan.RNights | planobs/multiday_plan.py:180-203 | the indices of the nights outside the one-filter nights with start, end and flag set, strictly increasing, and exactly those |
| MultidayPlan.GTriggersFollowNights | planobs/multiday_plan.py:154-171 | one g trigger per scheduled night, in night order: the a-th trigger is built from the a-th scheduled night |
| MultidayPlan.GTriggersComplete | planobs/multiday_plan.py:154-171 | every night with start, end and flag set contributes its g trigger |
| MultidayPlan.RTriggersFollowNights | planobs/multiday_plan.py:180-203 | one r trigger per night with a scheduled r window, in night order |
| MultidayPlan.RTriggersComplete | planobs/multiday_plan.py:180-203 | every night with a scheduled r window contributes its r trigger |
| MultidayPlan.SummaryText | planobs/multiday_plan.py:149-206 | the summary starts with the header naming the event and ends with the closing rule |
| MultidayPlan.PlannedTriggers | planobs/multiday_plan.py:149-206 | at most eight triggers, all for the recommended field, each in filter 1 or 2 |
| MultidayPlan.PlannedTriggersOrdered | planobs/multiday_plan.py:149-206 | every g trigger precedes every r trigger |
| MultidayPlan.OneFilterNightsHaveNoRBand | planobs/multiday_plan.py:180-203 | nights 2, 3, 5 and 7 print "NO OBS SCHEDULED" in r and add no r trigger |
| MultidayPlan.UnobservableNightAddsNoTrigger | planobs/multiday_plan.py:154-171 | a night without a g window prints "NOT OBSERVABLE" and adds no trigger |
| MultidayPlan.FullGBand | planobs/multiday_plan.py:154-169 | with every g window set there is one g trigger per night, in night order |
| MultidayPlan.FullRBand | planobs/multiday_plan.py:180-198 | with r windows on nights 1 and 9 the r triggers are exactly those two |
| MultidayPlan.FullPlanTriggers | tests/test_plan.py:118-279 | a fully observable plan has eight triggers: six in g (300 s, then 30 s), then r on nights 1 (300 s) and 9 (30 s) |
| MultidayPlan.TriggerLine | planobs/multiday_plan.py:213-216 | a line starts with the short start time and ends with the field |
| MultidayPlan.TriggerLines | planobs/multiday_plan.py:213-216 | one print line per trigger, in order |
| MultidayPlan.GBandWindows | planobs/multiday_plan.py:154-171 | the g loop produces the g lines and g triggers of all nights |
| MultidayPlan.RBandWindows | planobs/multiday_plan.py:180-203 | the r loop produces the r lines and r triggers of all nights |
| MultidayPlan.MultiDayObservation.constructor | planobs/multiday_plan.py:149-206 | summarytext is the header, g lines, separator, r lines and closing rule; triggers are the g triggers then the r triggers; every filter has a band letter |
| MultidayPlan.MultiDayObservation.PrintTriggers | planobs/multiday_plan.py:211-219 | the message is the trigger lines joined by newlines |
| SlackbotServer.Fuzzy | slackbot_server.py:169-175 | four variants per word |
| SlackbotServer.FuzzyAt | slackbot_server.py:169-175 | element 4 i + j is the j-th of "", "-", "--", "–" in front of the i-th word |
| SlackbotServer.FuzzyMembership | slackbot_server.py:172-174 | a string is a fuzzy parameter exactly when it is a prefix followed by one of the words |
| SlackbotServer.FuzzyKeepsWords | slackbot_server.py:172-174 | every word appears unchanged among its variants |
| SlackbotServer.FuzzyParameters | slackbot_server.py:169-175 | the nested loops build exactly the fuzzy list |
| SlackbotServer.AnyTokenIn | slackbot_server.py:275-278 | a pass over the tokens finds a match exactly when some token is among the variants |
| SlackbotServer.ScanFlags | slackbot_server.py:262-326 | the scan sets help and clears the plan on a help word, multiday on a multiday word, switch_filters on a switch word, and submit with multiday on a submit word |
| SlackbotServer.HelpVariantStopsPlan | slackbot_server.py:275-278 | any prefixed help word anywhere sets help and clears the plan |
| SlackbotServer.SubmitVariantSelectsMultiday | slackbot_server.py:321-326 | any prefixed submit or trigger word sets both submit and multiday |
| SlackbotServer.FlagsOf | slackbot_server.py:262-326 | help is set exactly by a help word, and plan exactly when help is not; switch filters exactly by a switch word; submit exactly by a submit word; multiday by a multiday or a submit word, so submit implies multiday |
| SlackbotServer.ValueScan | slackbot_server.py:280-293 | a value scan fails only with IndexError, or with ValueError where the value is parsed |
| SlackbotServer.ValueScanSucceeds | slackbot_server.py:280-293 | a value scan raises nothing exactly when every flag is followed by a value, one float() accepts where it is parsed |
| SlackbotServer.ScanValues | slackbot_server.py:280-293 | the loop stops at the first exception of the value scan |
| SlackbotServer.RemoveStars | slackbot_server.py:241 | no '*' remains, nothing is added, and one character is dropped exactly when it is a star |
| SlackbotServer.RemoveStarsConcat | slackbot_server.py:241 | removing stars distributes over concatenation, which with the one-character case fixes the result |
| SlackbotServer.RemoveStarsKeepsStarless | slackbot_server.py:241 | a text without stars is unchanged |
| SlackbotServer.SplitFromTokens | slackbot_server.py:242 | split from any point gives whitespace-free, non-empty tokens that concatenate to the rest of the non-space text |
| SlackbotServer.Split | slackbot_server.py:242 | `str.split()` tokens are non-empty, hold no whitespace and concatenate to the non-whitespace characters |
| SlackbotServer.SplitAtSpace | slackbot_server.py:242 | whitespace separates: split of a + [c] + b is split of a followed by split of b |
| SlackbotServer.SplitOfToken | slackbot_server.py:242 | a non-empty word without whitespace is one token |
| SlackbotServer.RemoveStarsOfStarredPlan | slackbot_server.py:241 | "*Plan*" loses its stars |
| SlackbotServer.SplitOfPlan | slackbot_server.py:242 | "Plan" splits into the one token "Plan" |
| SlackbotServer.StarredPlanIsPlan | slackbot_server.py:241-242 | a bold "*Plan*" reads as the command "Plan" |
| SlackbotServer.BarePlanGivesHelp | slackbot_server.py:248-259 | "Plan" or "plan" alone is answered with the help message only |
| SlackbotServer.Respond | slackbot_server.py:241-419 | a new message is never ignored; help is posted exactly for a bare "Plan"/"plan"; nothing for an empty text; a named plan command gives a plan reply or a crash, and a plan reply names the second token and carries the scanned flags with help off; the Queue command exactly for a "QUEUE"/"Queue"/"queue" first token; no command exactly for any other first token |
| SlackbotServer.HelpAfterNameCrashes | slackbot_server.py:275-336 | a help flag after the name makes the handler raise: help is never posted for it |
| SlackbotServer.TomorrowCrashes | slackbot_server.py:295-298 | any tomorrow flag makes the handler raise |
| SlackbotServer.TrailingValueFlagCrashes | slackbot_server.py:280-382 | a ra, dec, date, airmass or site flag as the last token makes the handler raise |
| SlackbotServer.PlanCommand | slackbot_server.py:261-382 | the flag scans and value scans in the handler's order give the reply Respond describes |
| SlackbotServer.PlanReplyShape | slackbot_server.py:261-382 | a plan reply comes only without help or tomorrow flags, with every value flag followed by a value and every ra, dec and airmass value accepted by float() |
| SlackbotServer.PlanReplyWhenFlagsComplete | slackbot_server.py:261-382 | conversely, a named plan command meeting those conditions is answered with the plan for that name and its flags, so it crashes exactly when one fails |
| SlackbotServer.MessageHandler.constructor | slackbot_server.py:228 | ts_old starts empty |
| SlackbotServer.MessageHandler.Message | slackbot_server.py:236-336 | a seen timestamp is ignored and changes nothing; a new one is appended exactly once and the text is answered; timestamps stay distinct |
| SlackbotServer.RecordingKeepsDistinct | slackbot_server.py:238-239 | appending an unseen timestamp keeps ts_old free of duplicates and contains it |

## Left out

- The Kowalski network client (`Kowalski(...)`, `ping`, `api`, and the `close` in `__del__`) is network I/O. It is modelled as a reply function plus a request log. Logging and `Queue.print` are not modelled.
- `get_too_queues_name_and_date` is left out. It needs astropy times, ISO formatting, float minutes and `json.loads`.
- `Position.area` and the cosine in `from_circle` are trigonometry on floats. `FromCircle` takes cos(dec) as a parameter instead. The source's `area` uses `dec + dec_err_minus` as its lower edge (position.py line 75), unlike `get_rectangle`. That is left unmodelled with `area`.
- Positions.NewPosition: an explicit `None` passed for a minus error is treated like an omitted one. In Python, `abs(None)` raises a TypeError.
- IsZtfName and IsIcecubeName accept only ASCII digits for `\d`. Python's `re` also accepts other Unicode decimal digits there.
- Reals stand for Python floats. Rounding is not modelled.
- Models.NewTooRequest does not re-validate the nested targets. Its argument is already a list of built targets.
- The time conversions `round_time`, `isotime_to_mjd`, `mjd_to_isotime` and `isotime_delta_to_seconds` are astropy arithmetic. They appear only as function parameters.
- The reference downloads `get_all_references_from_ipac` and `get_references` are HTTP and file I/O. They are not modelled.
- Most of the plan gathering of `MultiDayObservation.__init__` (lines 52-147) is not modelled: the single-night planner, the field choice and the PDF of plots. Its results, the per-night windows and the recommended field, are inputs here. Only the night dates (`NightDays`, lines 75-80) and the bands argument per night (`RequestedBands`, lines 104-118) are modelled.
- In the gathering code, `if observable:` tests the list, which is never empty after the append. Its `None` branch is therefore unreachable. The model takes whatever windows the gathering produced.
- The assembly treats an observable flag of `False` like `True`, because the code only compares the flag with `None`. The model does the same.
- MultidayPlan.SummaryText: the exact summary text of the test case (tests/test_plan.py line 92) is not proved. Its windows would need astropy's time formatting, which is a parameter here. The contract states the header and the closing rule; the per-night lines are stated by `OneFilterNightsHaveNoRBand` and `UnobservableNightAddsNoTrigger`.
- MultidayPlan.MultiDayObservation.constructor: the summary text is assembled from the two band loops' results rather than by appending to the field in place. The intermediate values of `self.summarytext` are not modelled.
- `print_plan` and the printing in `print_triggers` are output only. They are not modelled.
- The Slack and Flask plumbing of `slackbot_server.py` is not modelled. That covers posting messages, the help text blocks, the values read after ra, dec, date and airmass, the site lookup, the name check that chooses the alert source, the `Queue` commands and `do_obs_plan`. The site and name checks can still clear `do_plan` after the flag scan, so `PlanFlags.doPlan` is the value after the scan only.
- SlackbotServer.Respond: `Crashed` covers the exceptions of the handler up to the site scan. It does not cover exceptions raised by the site lookup, the Slack client or `do_obs_plan`. `isFloat` stands for Python's `float()`; its rules are not modelled.
- The payload fields `text` and `ts` are taken to be strings. A missing field (`None`) is not modelled.
- `planobs/slackbot.py`, `planobs/cli.py`, `icecube_plan.py`, `planobs/fritzconnector.py` and `planobs/credentials.py` are not part of this model. They are orchestration, command-line wrappers, network access and account setup.
