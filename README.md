# AttendXpress attendance core, modelled in Dafny

AttendXpress is a Django application for makeup classes. A faculty member schedules a
makeup session and activates its remedial code. Enrolled students type that code to mark
themselves present, and a rule-based "AI" service predicts turnout, recommends free
time slots, analyses attendance patterns and sends notifications to students.

This project models two parts of it:

- the attendance-code lifecycle of a session:
  - code generation and the unique constraint;
  - the default expiry that `save()` fills in;
  - the validity predicate and input normalisation;
  - the check-in ladder of `mark_attendance` and its inserts;
  - the faculty's status and code writes;
  - the chart tally and the dashboard rate;
- the insight engine: prediction, slot scoring, the recommendation scan and sort,
  pattern analysis and the notification fan-out.

Files:

- `Basics.dfy`: Option and Result; day numbers with Python's `weekday()`; times of day in seconds; timestamps.
- `Models.dfy`: codes, sessions, records, notifications and courses, the table
  invariants, and the `Database` class. Its fields are the tables and its `Insert` and
  `Update` are `save()` under the unique constraint.
- `Forms.dfy`: ASCII `strip`/`upper`, the code field's cleaning, and `MakeUpClassForm.clean`.
- `AiService.dfy`: `predict_attendance`, `_score_slot`, `_slot_reason`,
  `get_schedule_recommendations`, `analyze_attendance_patterns` and both fan-out helpers.
- `Views.dfy`: `mark_attendance`, `activate_code`, `complete_class`, `regenerate_code`,
  `api_attendance_chart` and the student dashboard's rate.

Where the code loops or writes tables, the model is a method with loop invariants. Each
method is proved against a specification function, and the function's properties are
proved as lemmas. Rates are exact reals.

Two behaviours of the code that are easy to misread:

- `save()` has no retry when a new code collides with a stored one: the unique constraint on
  `remedial_code` (attendance_app/models.py:62) rejects the write. The model writes nothing and
  reports a conflict.
- The recommendations are ordered by `list.sort` (attendance_app/ai_service.py:111), which is stable,
  so equal scores keep their scan order. The model proves non-increasing scores and stability.

## Model

| member | source | states |
|---|---|---|
| Basics.Weekday | attendance_app/ai_service.py:43 | `date.weekday()` on day numbers is in 0..6 |
| Basics.Hour | attendance_app/ai_service.py:48 | the hour of a time of day is in 0..23, and the time falls within that hour |
| Basics.Combine | attendance_app/models.py:78 | combining a date and a time gives an instant within that day |
| Models.AlphabetChar | attendance_app/models.py:11 | the k-th character of uppercase letters then digits is a code character, and a letter exactly when k < 26 |
| Models.AlphabetIndex | attendance_app/models.py:11 | every code character has a position in the 36-character alphabet that maps back to it |
| Models.GenerateRemedialCode | attendance_app/models.py:9-11 | a generated code has length 8 and only characters from A-Z and 0-9 |
| Models.DrawsOf | attendance_app/models.py:9-11 | every code has draws that are valid inputs of the generator |
| Models.EveryCodeIsGenerated | attendance_app/models.py:9-11 | every 8-character A-Z/0-9 string is produced by some draw |
| Models.GenerationIsInjective | attendance_app/models.py:9-11 | different draws give different codes |
| Models.NewSession | attendance_app/models.py:62-64 | a new session's first save stores it scheduled, with the given fields and an expiry an hour after its end, and its code is accepted at no time before activation |
| Models.WithDefaultExpiry | attendance_app/models.py:75-80 | after `save` the expiry is set: an unset one becomes end of session + 1 hour, a set one is kept, and nothing else changes |
| Models.SaveIsIdempotent | attendance_app/models.py:76 | saving twice gives the same session as saving once |
| Models.DefaultExpiryWindow | attendance_app/models.py:78-79 | a default expiry lies strictly after the session's end, and at most one hour after it |
| Models.ExpiredAtBoundary | attendance_app/models.py:83-86 | at or after the expiry instant the code is not valid |
| Models.ValidityIsDownwardClosed | attendance_app/models.py:83-86 | a code valid now was valid at every earlier instant of the same session state |
| Models.SavedActiveWindow | attendance_app/models.py:75-86 | a saved and activated session's code is valid iff now is before end + 1 hour |
| Models.IsCodeValid | attendance_app/models.py:83-86 | the validity test: active, with an expiry, and now strictly before it; its properties are ExpiredAtBoundary, ValidityIsDownwardClosed and SavedActiveWindow |
| Models.AttendanceCount | attendance_app/models.py:88-90 | the count of the session's present records is at most the number of records |
| Models.AttendanceCountIsCardinality | attendance_app/models.py:88-90 | `attendance_count` equals the size of the set of the session's present rows |
| Models.AttendanceCountAppend | attendance_app/models.py:88-90 | one more record adds one to the count iff it is a present record of the session |
| Models.FindByCode | attendance_app/views.py:287 | the lookup returns a session holding the code, and returns none iff no session holds it |
| Models.HasRecord | attendance_app/views.py:294 | whether the student already has a record for the session; MarkedOnce shows a success makes it hold |
| Models.FindByCodeUnique | attendance_app/models.py:62 | under the unique constraint the lookup finds exactly the session holding the code |
| Models.Database.constructor | attendance_app/models.py:108-109 | an empty store satisfies the unique constraints and foreign keys |
| Models.Database.Insert | attendance_app/models.py:62-80 | a new session is stored with its default expiry iff no other session holds its code; otherwise nothing is written; the invariants are kept |
| Models.Database.Create | attendance_app/views.py:139-141 | a new session is stored scheduled with the default expiry iff no session holds its code; otherwise nothing is written; the invariants are kept |
| Models.Database.Update | attendance_app/models.py:75-80 | a saved session replaces its row iff no other session holds its code; other tables are unchanged; the invariants are kept |
| Forms.UpperChar | attendance_app/forms.py:87 | upper-casing keeps whitespace, keeps code characters, and leaves no lowercase letter |
| Forms.Upper | attendance_app/forms.py:87 | `upper()` maps every character and keeps the length |
| Forms.LeadingSpaces | attendance_app/forms.py:87 | `lstrip` drops exactly the maximal leading run of whitespace |
| Forms.LStrip | attendance_app/forms.py:87 | `lstrip` returns a suffix whose dropped part is whitespace and which does not start with whitespace |
| Forms.RStrip | attendance_app/forms.py:87 | `rstrip` returns a prefix whose dropped part is whitespace and which does not end with whitespace |
| Forms.Strip | attendance_app/forms.py:87 | `strip` returns a text that neither starts nor ends with whitespace |
| Forms.StripRemovesOnlySpace | attendance_app/forms.py:87 | `strip` removes whitespace at the two ends and nothing else |
| Forms.StripPadded | attendance_app/forms.py:87 | stripping whitespace around a trimmed text gives back that text |
| Forms.Normalize | attendance_app/forms.py:86-87 | the normalised code has no surrounding whitespace and no lowercase letter |
| Forms.NormalizeIsIdempotent | attendance_app/forms.py:86-87 | normalising twice is normalising once |
| Forms.GeneratedCodeIsNormal | attendance_app/forms.py:87 | a generated code is unchanged by normalisation |
| Forms.TypedCodeMatches | attendance_app/forms.py:86-87 | a stored code typed in any case with surrounding whitespace normalises to the stored code |
| Forms.CleanRemedialCode | attendance_app/forms.py:76-87 | the field is required after stripping, rejects more than 20 characters, rejects a null character, and an accepted value has 1 to 20 characters and no null character; each error is stated as an iff |
| Forms.CleanedCodeIsNormalized | attendance_app/forms.py:76-87 | an accepted value is the stripped and upper-cased input |
| Forms.TypedCodeAccepted | attendance_app/forms.py:76-87 | a correctly typed code passes the form as the stored code |
| Forms.CleanSchedule | attendance_app/forms.py:63-72 | the form passes iff the date is not in the past and the start is before the end; the date error comes first |
| AiService.EnrolledCount | attendance_app/ai_service.py:31 | the enrolment is the student count, or 30 when that is 0 |
| AiService.Recent | attendance_app/ai_service.py:27-29 | exactly min(10, n) of the most recent completed sessions are used, as a prefix of the history |
| AiService.DayFactor | attendance_app/ai_service.py:43-45 | the day factor lies in [0.45, 0.92] |
| AiService.TimeFactor | attendance_app/ai_service.py:47-56 | the time factor is 0.95 iff hour in 9..11, 0.90 iff 14..16, 0.75 iff 17..19, else 0.65 |
| AiService.RushLevel | attendance_app/ai_service.py:61-65 | rush is high iff rate > 0.85, medium iff 0.65 < rate <= 0.85, low otherwise |
| AiService.Confidence | attendance_app/ai_service.py:72 | the confidence lies in [0.5, 0.95], is 0.5 + 0.05 n below 9 sessions, and 0.95 from 9 on |
| AiService.ConfidenceMonotone | attendance_app/ai_service.py:72 | more history never lowers the confidence |
| AiService.SumRates | attendance_app/ai_service.py:35-39 | the summed rates are non-negative |
| AiService.BaseRate | attendance_app/ai_service.py:32-40 | the base rate is non-negative |
| AiService.SumRatesAtMostCount | attendance_app/ai_service.py:35-39 | with no count above the enrolment, the sum of rates is at most the number of sessions |
| AiService.BaseRateAtMostOne | attendance_app/ai_service.py:32-40 | with no count above the enrolment, the base rate is at most 1 |
| AiService.FactorProductBounds | attendance_app/ai_service.py:44-56 | day x time factor is at most 0.874; it exceeds 0.85 only on Tue/Thu mornings, and 0.86 exactly on Thu mornings |
| AiService.ScaledRate | attendance_app/ai_service.py:58 | the predicted rate lies between 0 and 0.874 x the base rate |
| AiService.ExpectedCount | attendance_app/ai_service.py:59 | the predicted count is the truncation of enrolled x rate |
| AiService.Predict | attendance_app/ai_service.py:19-73 | the prediction's enrolment, rate bound, rush bucket, count and confidence follow the rules above |
| AiService.PredictedRateIsProduct | attendance_app/ai_service.py:58 | the rate is base rate x day factor x time factor |
| AiService.PredictAttendance | attendance_app/ai_service.py:19-73 | the accumulating loop computes the prediction of `Predict` |
| AiService.NoHistoryRush | attendance_app/ai_service.py:32-65 | without history the rush is never high, and medium exactly on Thursday mornings |
| AiService.HighRushOnlyTuesdayOrThursdayMorning | attendance_app/ai_service.py:58-65 | with attendance within enrolment, a high rush is predicted only for Tue/Thu mornings |
| AiService.CountBelowEnrolment | attendance_app/ai_service.py:59 | a rate of at most 0.874 predicts fewer than the enrolled number |
| AiService.PredictedCountBelowEnrolment | attendance_app/ai_service.py:31-59 | with attendance within enrolment, the predicted count is below the enrolment |
| AiService.PredictionExample | attendance_app/ai_service.py:19-73 | 30 students, counts 30/25/20, Tuesday 10:00: rate 0.7125, medium, 21 expected, confidence 0.65 |
| AiService.ScoreSlot | attendance_app/ai_service.py:115-125 | the score lies in [100, 130]; it is 130 iff Tue-Thu morning, and 100 iff no bonus applies |
| AiService.SlotReason | attendance_app/ai_service.py:128-138 | the reasons joined by `; `, or the generic reason when none applies; its rules are stated by SlotReasonsRules and GenericReasonExactly |
| AiService.SlotReasonsRules | attendance_app/ai_service.py:128-138 | mid-week reason iff Tue/Wed; morning reason iff 9..11; afternoon iff 14..16; never both; no other reason |
| AiService.ThursdayBonusWithoutReason | attendance_app/ai_service.py:115-138 | Thursday scores like Tuesday, 10 above Monday, yet only Tuesday gets the mid-week reason |
| AiService.GenericReasonExactly | attendance_app/ai_service.py:128-138 | no reason is collected iff no rule applies, and then the generic reason is given |
| AiService.DaySlots | attendance_app/ai_service.py:97-107 | a day yields at most one candidate per slot |
| AiService.DayCandidates | attendance_app/ai_service.py:94-107 | a day outside Monday-Thursday yields no candidate, and no day yields more than 4 |
| AiService.WindowDays | attendance_app/ai_service.py:94-107 | the window has 14 days, day i holding the candidates of base + i |
| AiService.ScanIsPrefixOfAll | attendance_app/ai_service.py:94-109 | the scan collects a prefix of all free slots of the window, and all of them when fewer than 5 |
| AiService.ScanBound | attendance_app/ai_service.py:94-109 | the early stop keeps the collection at most 4 + one day's slots |
| AiService.DaySlotsProper | attendance_app/ai_service.py:96-107 | every candidate of a good day is an unbooked slot, scored and explained by the rules |
| AiService.WindowDaysProper | attendance_app/ai_service.py:94-107 | every day list of the window holds proper candidates only |
| AiService.CollectedProper | attendance_app/ai_service.py:94-109 | everything collected is a Mon-Thu unbooked slot within 14 days from tomorrow, and at most 8 are collected |
| AiService.InsertByScore | attendance_app/ai_service.py:111 | insertion adds exactly one element and keeps the multiset |
| AiService.SortByScore | attendance_app/ai_service.py:111 | the sort is a permutation |
| AiService.InsertKeepsSorted | attendance_app/ai_service.py:111 | insertion keeps scores non-increasing |
| AiService.SortByScoreSorted | attendance_app/ai_service.py:111 | the sorted list has non-increasing scores |
| AiService.InsertWithScore | attendance_app/ai_service.py:111 | insertion appends the element after all earlier ones of equal score |
| AiService.SortByScoreStable | attendance_app/ai_service.py:111 | the sort is stable: elements of equal score keep their scan order |
| AiService.TopRecommendations | attendance_app/ai_service.py:111-112 | exactly min(5, n) are returned, as a prefix of the sorted list |
| AiService.SortedCut | attendance_app/ai_service.py:111-112 | cutting a sorted list keeps the kept part sorted, and nothing cut scores above anything kept |
| AiService.TopRecommendationsAreBest | attendance_app/ai_service.py:111-112 | the result is sorted, drawn from the collection, and nothing left out scores above anything returned |
| AiService.RecommendationsAvoidSessions | attendance_app/ai_service.py:82-98 | with the booked pairs taken from the course's scheduled or active sessions, no recommendation starts in the same minute of the same day as one of them |
| AiService.RecommendationsAreProper | attendance_app/ai_service.py:82-112 | every recommendation is a Mon-Thu unbooked slot within 14 days from tomorrow, scored by the rules |
| AiService.FreeSlotsOn | attendance_app/ai_service.py:97-107 | the inner loop collects the day's unbooked slots in slot order |
| AiService.ScanDay | attendance_app/ai_service.py:94-109 | one day of the scan adds that day's free slots and stops exactly when a good day brings the total to 5 or more |
| AiService.ScanFrom | attendance_app/ai_service.py:94-109 | the scan as a reference definition: each day adds its free slots, and the scan stops after the first good day that leaves 5 or more; its properties are ScanIsPrefixOfAll and ScanBound |
| AiService.Collected | attendance_app/ai_service.py:88-109 | the scan over the 14 days from tomorrow; its properties are CollectedProper and RecommendationsAreProper |
| AiService.ScanWindow | attendance_app/ai_service.py:88-109 | the nested loops with their early break compute the scan's collection |
| AiService.GetScheduleRecommendations | attendance_app/ai_service.py:76-112 | the result is the top 5 of the stable sort of the scan, at most 5 and sorted by score |
| AiService.Rates | attendance_app/ai_service.py:170 | there is one rate per completed session |
| AiService.DaysInOrderHaveRates | attendance_app/ai_service.py:153-161 | every weekday that occurs has a non-empty list of rates, so its mean is defined |
| AiService.SeverityOf | attendance_app/ai_service.py:166-181 | a best-day insight is a success, a trend is info when improving and a warning otherwise; used by ThreeSessionsDecline |
| AiService.TrendOf | attendance_app/ai_service.py:170-181 | the recent and earlier figures are the means of the last three and the first three rates, and the trend is improving iff the first exceeds the second |
| AiService.ThreeSessionsDecline | attendance_app/ai_service.py:170-181 | with exactly three sessions the trend is always reported as declining, with warning severity |
| AiService.DayRates | attendance_app/ai_service.py:153-157 | the rates of a weekday's sessions in order, the reference the grouping loop is proved against; non-empty for every occurring weekday by DaysInOrderHaveRates |
| AiService.DaysInOrder | attendance_app/ai_service.py:153-157 | the occurring weekdays in order of first occurrence, the dictionary's key order |
| AiService.IsBestDay | attendance_app/ai_service.py:159 | `max` by mean: a weekday of highest mean, first among equal means; FirstBestDay returns one |
| AiService.GroupByDay | attendance_app/ai_service.py:153-157 | the loop groups the rates by weekday, with keys in order of first occurrence |
| AiService.GroupedStep | attendance_app/ai_service.py:153-157 | one more session appends its rate to its weekday's list, adding the key if new |
| AiService.FirstMaxIndex | attendance_app/ai_service.py:159 | `max` returns the first position of greatest mean |
| AiService.FirstBestDay | attendance_app/ai_service.py:159 | the chosen weekday has the highest mean, and is the first in key order among equal means |
| AiService.DayAnalysis | attendance_app/ai_service.py:152-167 | the best-day insight names a best weekday with its mean rate |
| AiService.AnalyzeAttendancePatterns | attendance_app/ai_service.py:141-183 | no completed session gives no insight; otherwise best day, then a trend iff at least 3 sessions |
| AiService.RecipientsAppend | attendance_app/ai_service.py:194-207 | appending an alert adds its recipient to the recipients |
| AiService.AlertsFor | attendance_app/ai_service.py:194-207 | one unread notification of the kind about the session per student and no other; BuildAlerts, FanOut and both helpers are proved against it |
| AiService.BuildAlerts | attendance_app/ai_service.py:190-207 | one unread alert of the kind about the session per enrolled student, and no other |
| AiService.FanOut | attendance_app/ai_service.py:209-212 | the alerts are appended to the notifications, the count is the enrolment, and nothing else changes |
| AiService.GenerateAutoAlerts | attendance_app/ai_service.py:186-212 | every enrolled student gets one "makeup scheduled" notification; the count is returned, 0 included |
| AiService.SendCodeNotification | attendance_app/ai_service.py:215-237 | every enrolled student gets one "code generated" notification; the count is returned, 0 included |
| Views.CheckInOutcome | attendance_app/views.py:275-320 | a success is for a stored session the student is enrolled in, whose code is valid now and who has no record for it |
| Views.Enrolled | attendance_app/views.py:288 | the student is among the students of the session's course; TypedCodeLadder and CheckInOutcome use it as the second check |
| Views.MarkedCodeMatches | attendance_app/views.py:285-287 | a success is for the session whose code is the normalised input |
| Views.FirstField | attendance_app/views.py:298 | the first field is a prefix without a comma, ended by a comma or the end of the header |
| Views.ClientIp | attendance_app/views.py:297-298 | a non-empty forwarded header gives its first field (a comma-free prefix ended by the first comma or the end), otherwise REMOTE_ADDR |
| Views.MarkKeepsConsistent | attendance_app/views.py:300-313 | adding a first record of a student and its notification keeps the tables consistent |
| Views.MarkAttendance | attendance_app/views.py:275-320 | success appends one present, code-verified record and one notification to the faculty; every other outcome writes nothing |
| Views.TypedCodeLadder | attendance_app/views.py:285-295 | for a correctly typed code: not enrolled first, then not active, then already marked, else marked |
| Views.UnknownCodeIsInvalid | attendance_app/views.py:319-320 | a code no session holds gives the invalid-code outcome |
| Views.RoleGateFirst | attendance_app/views.py:276-279 | a user without a profile or a faculty member is turned away before any lookup |
| Views.MarkedOnce | attendance_app/views.py:294-306 | after a success the count rises by one and the same student is never marked for that session again |
| Views.OwnCodeIsFree | attendance_app/views.py:242-243 | saving a session with its own code never collides with the unique constraint |
| Views.Owns | attendance_app/views.py:241 | `get_object_or_404(..., faculty=user)`: the session exists and the user is its faculty; SetStatus, ActivateCode and CompleteClass answer 404 exactly when it fails, and RegenerateCode does so after its role check |
| Views.SetStatus | attendance_app/views.py:241-243 | the owner's session gets the new status whatever it was, keeping its expiry; anyone else gets a 404 |
| Views.ActivateCode | attendance_app/views.py:240-246 | the owner's session becomes active and every enrolled student is notified; otherwise nothing changes |
| Views.CompleteClass | attendance_app/views.py:251-256 | the owner's session becomes completed; nothing else changes |
| Views.RegenerateCode | attendance_app/views.py:261-269 | non-faculty get a 403; an owner's code is replaced by the new one unless another session holds it; only the code changes |
| Views.StatusWriteKeepsCodes | attendance_app/views.py:242-243 | writing a status leaves every code in place, so the codes stay unique |
| Views.ActivatedCodeWindow | attendance_app/views.py:240-246 | after activation, an enrolled student typing the code is marked iff now is before the expiry, and told "not active" otherwise |
| Views.Percentage | attendance_app/views.py:457 | the rate is 0 for an empty whole, otherwise 100 x part / whole, and within 0..100 when part <= whole |
| Views.AttendanceChart | attendance_app/views.py:447-458 | present is the session's count, absent is max(enrolled - present, 0), and the rate is 0 without enrolment |
| Views.PossibleSessions | attendance_app/views.py:110-112 | the possible sessions are exactly the completed sessions of the student's courses |
| Views.PresentRecords | attendance_app/views.py:107-109 | the student's present records are at most all records |
| Views.DashboardRate | attendance_app/views.py:107-120 | the dashboard rate is 0 when no session is possible, and never negative |
| Views.DashboardRateExceedsHundred | attendance_app/views.py:107-120 | a consistent store where the dashboard shows 200% |
| Views.CountedRecords | attendance_app/views.py:107-109 | the corrected count never exceeds the count as written |
| Views.CountedSessions | attendance_app/views.py:107-112 | the counted sessions are possible sessions |
| Views.CountedRecordsAreSessions | attendance_app/models.py:109 | with one record per student and session, the counted records are as many as their sessions |
| Views.CorrectedDashboardRate | attendance_app/views.py:107-120 | the corrected rate is 0 when no session is possible |
| Views.CorrectedRateAtMostHundred | attendance_app/views.py:107-120 | the corrected rate lies between 0 and 100 |

## Left out

- Randomness: `random.choices` is replaced by its eight draws, passed in as indices into the alphabet.
- The ORM, rendering, redirects, flash messages and JSON bodies are not modelled. Tables are sequences and maps in a `Database` object, and handlers return which outcome they took.
- GET requests, login and `require_POST` are not modelled. `mark_attendance` is modelled for a submitted form.
- Clock, time zone and calendar: the current time and today's date are parameters. Dates are day numbers and times are seconds; `make_aware` is not modelled.
- String handling is ASCII only: Unicode whitespace and case mapping are not modelled.
- Notification titles and messages, and the result messages, are not modelled. Notifications keep only their kind, recipient, related session and read flag.
- AiService.Predict: rates are exact reals, so `round(..., 1)` and `round(..., 2)` and IEEE effects near the 0.65 and 0.85 thresholds are not modelled.
- Views.Percentage: the result is the exact real; the source's `round(..., 1)` is not modelled.
- AiService.AnalyzeAttendancePatterns: the completed sessions are taken in date order for both analyses. The source's day grouping iterates an unordered query, so this fixes the tie order among equal means. Insight text, icons and the rounding of averages are not modelled.
- AiService.PredictAttendance: the history is given as attendance counts, most recent first, rather than queried.
- AiService.GetScheduleRecommendations: the booked (date, start) pairs are a parameter; `BookedSlots` computes them from the stored sessions, and RecommendationsAvoidSessions states the result in those terms.
- AiService.SlotReason: the joined reason string has no contract of its own; SlotReasonsRules and GenericReasonExactly state which reasons are collected.
- Forms.CleanRemedialCode: when a value is both too long and holds a null character Django reports both errors; the model reports the first.
- GenericIPAddressField validation and the conversion of "" to NULL are not modelled; the address is stored as found.
- `predicted_attendance` and `ai_recommendations` are never written by the modelled handlers, so they are omitted from `Session`.
- The face-recognition fields and the `AIInsight` model are placeholders and are not modelled.
- Concurrency: two check-ins racing between the existence test and the insert are not modelled; the store is single-threaded.
- A code collision raises an error in the source with no retry. The model writes nothing and reports a conflict (`Database.Insert`, `Database.Update`, `Views.RegenerateCode`).
- The other handlers are not modelled: login, registration, listings, course management and notification read-marking. Of `schedule_makeup`, only the first save is modelled (`Database.Create`); the calls to the alert fan-out and the prediction and the second save of the predicted count are left out.

## Findings

| source | as written | input that shows it | evidently intended | confidence | as-written member | corrected member |
|---|---|---|---|---|---|---|
| attendance_app/views.py:107-120 | `my_attendance` counts every present record of the student, but `total_possible` counts only completed sessions of the student's courses, so records for active or scheduled sessions inflate the rate | a student enrolled in one course checks in to session 0, which is later completed, and to session 1, which is still active: 2 present records against 1 possible session give 200% | a rate between 0 and 100 that counts only records of the sessions in `total_possible` | medium, not executed | Views.DashboardRateExceedsHundred | Views.CorrectedRateAtMostHundred |
