# TacticalGrade core, modelled in Dafny

TacticalGrade is a student dashboard with a React front end and a FastAPI/MongoDB
back end. This project models the rules in it that can be stated exactly, and
proves properties of them:

- **the grade predictor**: the weighted average Σ(score/total·weight)/Σweight·100
  with what-if overrides, and the 90/85/75 compliance tiers. It is implemented
  twice. The front end's simulator page (`GradeSimulator`) is in JavaScript,
  where dividing by a zero weight gives NaN. The back end's `create_subject` and
  `simulate_grade` (`Server`) guard that division and return 0, and
  `create_subject` grades only the components that are not pending. `Divergence`
  proves how the two copies relate.
- **the study planner's task list** (`StudyPlanner`): toggling a task, sorting a
  copy incomplete-first and most urgent first, the due-date label and the
  sidebar counts.
- **the back end's bookkeeping** (`Server`): the average compliance, the partial
  task update, the completion toggle, the pass/fail of a submission and the
  leaderboard ranks.
- **the AI services' response handling** (`AiServices`): cutting the JSON span out
  of a model reply, the fallbacks, the three-insight cap, the pending-component
  summary and the passed-test count.
- **the dashboard lookups** (`Dashboard`): badge icons, rarity gradients, the
  earned-badge count and the compliance colours.

Scores are `real`: the model is about the ratio algebra, not floating point. The
records of `backend/models.py` are datatypes in `Models`. The front end's mock
subjects, badges and the fixed test results are example vectors in `Mock`.

Where a handler reads from the database, the document it finds is a parameter;
`None` stands for "not found", which the handler answers with a 404. These also
become parameters:

- the model's reply, or the error it raised;
- JSON decoding, including validation of the decoded records;
- the clock;
- the identifiers the back end draws from uuid4.

The loops of the source are methods with loop invariants, proved against the
recursive functions that specify them:

- `simulateGrade` and both back-end grade loops;
- the `subjects_summary` loop;
- the leaderboard loop;
- the planner's sort, an insertion sort on an array copy.

The simulator page's state is a class whose methods replace the simulations map
wholesale, as `setSimulations` does.

## Model

| member | source | states |
|---|---|---|
| Grading.Percentage | backend/server.py:183 | The back end's guarded ratio is 0 when the weight is not positive; otherwise the ratio times the weight equals the weighted score times 100. |
| Grading.Tier | backend/server.py:186-194 | The first match of ≥90, ≥85, ≥75 and otherwise. Each tier holds exactly on its half-open band of grades. |
| Grading.TierMonotone | frontend/src/pages/GradeSimulator.jsx:29-34 | A higher grade never falls into a lower tier. |
| Grading.ContributionBounds | frontend/src/pages/GradeSimulator.jsx:20 | With the score in [0, total] and a non-negative weight, score/total·weight lies in [0, weight]. |
| Grading.WeightedScoreBounds | frontend/src/pages/GradeSimulator.jsx:18-22 | The accumulated weighted score lies between 0 and the accumulated weight when every score is in range. |
| Grading.PercentageBounds | backend/server.py:228 | The guarded grade of such a subject lies in [0, 100]. |
| Grading.OverrideElsewhere | frontend/src/pages/GradeSimulator.jsx:19 | An override under a name that no component carries changes nothing. |
| Grading.RaisedScoreRaisesContribution | frontend/src/pages/GradeSimulator.jsx:20 | Raising one component's score strictly raises its contribution when its weight is positive. |
| Grading.RaisingOverrideRaisesScore | frontend/src/pages/GradeSimulator.jsx:18-22 | With unique names, raising one override strictly raises the weighted score, all else fixed. |
| Grading.RaisingOverrideRaisesPercentage | backend/server.py:223-228 | The same for the guarded percentage when the total weight is positive. |
| Grading.ZeroWeightsScoreNothing | frontend/src/pages/GradeSimulator.jsx:15-24 | A subject whose weights are all zero has weight 0 and weighted score 0. |
| GradeSimulator.Divide | frontend/src/pages/GradeSimulator.jsx:24 | JavaScript division. The result is finite exactly when the divisor is non-zero, with quotient·divisor = dividend. It is NaN exactly for 0/0, and otherwise an infinity carrying the dividend's sign. |
| GradeSimulator.PredictedGrade | frontend/src/pages/GradeSimulator.jsx:14-25 | The prediction is finite exactly when the total weight is non-zero, and then equals the weighted score over the weight, times 100. It is NaN exactly when both sums are 0. |
| GradeSimulator.SimulateGrade | frontend/src/pages/GradeSimulator.jsx:14-25 | The `forEach` loop's result is the weighted score over every component (override if present, an override of 0 included, else the recorded score), divided by the total weight, times 100, with no guard. |
| GradeSimulator.PredictionInRange | frontend/src/pages/GradeSimulator.jsx:14-25 | With positive weight and scores in range, the prediction is finite and in [0, 100]. |
| GradeSimulator.NoWeightIsNaN | frontend/src/pages/GradeSimulator.jsx:24 | A subject without weight is predicted as NaN. |
| GradeSimulator.GetComplianceStatus | frontend/src/pages/GradeSimulator.jsx:29-34 | A finite grade gets its tier. NaN fails every comparison and so is Critical. An infinity is Excellent or Critical by its sign. |
| GradeSimulator.ThresholdChecklist | frontend/src/pages/GradeSimulator.jsx:144-148 | The `reached` flags are nested (90 ⇒ 85 ⇒ 75), and each holds exactly when the status is at or above its tier. |
| GradeSimulator.InsightFor | frontend/src/pages/GradeSimulator.jsx:170-185 | The insight line follows the status, except that At Risk and Critical share the "Critical" line. |
| GradeSimulator.TrimStart | frontend/src/pages/GradeSimulator.jsx:114 | parseInt skips exactly the leading white space: what remains is a suffix that does not start with white space. |
| GradeSimulator.DigitValue | frontend/src/pages/GradeSimulator.jsx:114 | A character read as a digit has a value below the radix. |
| GradeSimulator.LeadingDigits | frontend/src/pages/GradeSimulator.jsx:114 | parseInt reads the longest prefix made only of digits. |
| GradeSimulator.ParseInt | frontend/src/pages/GradeSimulator.jsx:114 | parseInt gives NaN exactly when no digit of the radix follows the white space, the sign and the "0x" prefix. A negative result only comes after a minus sign. |
| GradeSimulator.InputScore | frontend/src/pages/GradeSimulator.jsx:114 | `parseInt(text) \|\| 0` stores 0 when nothing parses, and the parsed integer otherwise. |
| GradeSimulator.ParseDecimalDigits | frontend/src/pages/GradeSimulator.jsx:114 | A non-empty string of decimal digits is read whole. |
| GradeSimulator.DecimalTextValue | frontend/src/pages/GradeSimulator.jsx:114 | The decimal text of a number is all digits and denotes that number. |
| GradeSimulator.TypedNumberIsStored | frontend/src/pages/GradeSimulator.jsx:114 | Round trip: typing the decimal text of a whole number stores that number. |
| GradeSimulator.EmptyInputStoredAsZero | frontend/src/pages/GradeSimulator.jsx:114 | An empty field is stored as 0. |
| GradeSimulator.LettersStoredAsZero | frontend/src/pages/GradeSimulator.jsx:114 | "abc" is stored as 0. |
| GradeSimulator.BareHexPrefixStoredAsZero | frontend/src/pages/GradeSimulator.jsx:114 | "0x" with no digit after it is stored as 0. |
| GradeSimulator.TrailingTextIgnored | frontend/src/pages/GradeSimulator.jsx:114 | `parseInt(" 7 marks") \|\| 0` is 7: leading white space is skipped and trailing text ignored. The number field itself never hands such text over (see Left out). |
| GradeSimulator.SignedInput | frontend/src/pages/GradeSimulator.jsx:114 | "-4" is stored as -4. |
| GradeSimulator.HexInput | frontend/src/pages/GradeSimulator.jsx:114 | `parseInt("0x1A") \|\| 0` is 26: the "0x" prefix selects radix 16. The number field itself never hands such text over (see Left out). |
| GradeSimulator.Session.constructor | frontend/src/pages/GradeSimulator.jsx:11-12 | The page opens on the first subject with an empty simulations map. |
| GradeSimulator.Session.SelectSubject | frontend/src/pages/GradeSimulator.jsx:60-63 | Choosing a subject selects it and resets the simulations to the empty map, so the prediction is the subject's own, without overrides. |
| GradeSimulator.Session.SlideScore | frontend/src/pages/GradeSimulator.jsx:104 | The slider stores its value under the component's name, and every other key keeps its presence and its value. |
| GradeSimulator.Session.EnterScore | frontend/src/pages/GradeSimulator.jsx:114 | The field's handler stores `parseInt(value) \|\| 0` under the component's name (0 when nothing parses), and every other key is kept. |
| GradeSimulator.DataStructuresExample | frontend/src/mock.js:22-28 | "Data Structures" without overrides is predicted at 1541/30 ≈ 51.37, Critical. With Quiz 2 = 18 and Final Exam = 70 it is 2471/30 ≈ 82.37, At Risk. |
| StudyPlanner.ToggleTask | frontend/src/pages/StudyPlanner.jsx:13-17 | Same length and order. `completed` flips on exactly the tasks whose id matches. Every other field is unchanged. |
| StudyPlanner.ToggleTwiceRestores | frontend/src/pages/StudyPlanner.jsx:13-17 | Toggling the same id twice restores the list. |
| StudyPlanner.ToggleMovesCompletedCount | frontend/src/pages/StudyPlanner.jsx:13-17 | With unique ids, toggling a task moves the "Completed" count by exactly one, in the direction of its new state. |
| StudyPlanner.Compare | frontend/src/pages/StudyPlanner.jsx:37-40 | The comparator puts a first exactly when a is incomplete and b completed, or both agree on completion and a is more urgent. It returns 0 exactly on equal completion and urgency. |
| StudyPlanner.ComparatorConsistent | frontend/src/pages/StudyPlanner.jsx:37-40 | The comparator is antisymmetric in sign, total and transitive, so the sort is well defined. |
| StudyPlanner.Swap | frontend/src/pages/StudyPlanner.jsx:37 | The sort's exchange of two cells keeps the multiset. |
| StudyPlanner.InsertAt | frontend/src/pages/StudyPlanner.jsx:37-40 | One insertion pass extends the sorted prefix by one cell and keeps the multiset. |
| StudyPlanner.SortTasks | frontend/src/pages/StudyPlanner.jsx:37-40 | Sorting a copy gives a permutation of the tasks (the input is a value and stays untouched) in comparator order. Every incomplete task precedes every completed one, and urgency does not increase within each group. |
| StudyPlanner.FormatDate | frontend/src/pages/StudyPlanner.jsx:28-35 | The ceiling of the day difference picks the label. Overdue is a day or more past due, Today is up to a day past due, Tomorrow is within the next day, and "N days" means N-1 < difference/day ≤ N. |
| StudyPlanner.CompletedCount | frontend/src/pages/StudyPlanner.jsx:167 | The "Completed" count is at most the number of tasks. |
| StudyPlanner.OpenHighPriorityCount | frontend/src/pages/StudyPlanner.jsx:173 | The open high-priority count plus the completed count is at most the number of tasks, so completed tasks are never counted as high priority. |
| Server.Graded | backend/server.py:178-181 | The components that `create_subject` grades are no more than the components, and keep `total > 0`. |
| Server.GradedMembers | backend/server.py:179 | The graded components are exactly the components that are not pending. |
| Server.GradedAppend | backend/server.py:176-181 | The loop keeps the components' order: grading a concatenation grades each part in turn. |
| Server.NothingPendingAllGraded | backend/server.py:179 | With nothing pending, every component is graded, in order. |
| Server.AllPendingNothingGraded | backend/server.py:179 | With every component pending, nothing is graded. |
| Server.CurrentMarks | backend/server.py:176-183 | The recorded marks times the graded weight equal the graded weighted score times 100. They are 0 when the graded weight is not positive, and in particular when every component is pending. Only the maxima of components that are not pending need be positive. |
| Server.GradedSums | backend/server.py:176-181 | The loop accumulates the weighted score and the weight of exactly the components that are not pending. |
| Server.CreateSubject | backend/server.py:173-208 | Only the maxima of components that are not pending need be positive. The record holds the guarded average of the non-pending components as its current marks, total marks 100, compliance equal to the current marks, the status chain's tier of that compliance, and the request's name, code and components. |
| Server.PendingZeroMaximumAccepted | backend/server.py:176-194 | A quiz at 8/10 beside a pending final at 0/0, equally weighted, is accepted and records 80, At Risk: a pending component's maximum is never divided by. |
| Server.GradedIgnoresPending | backend/server.py:179 | Changing a pending component, to another pending one, leaves the graded components unchanged. |
| Server.PendingComponentIgnored | backend/server.py:178-183 | A pending component's score, maximum (0 included) and weight do not affect a new subject's marks. |
| Server.AllPendingIsCritical | backend/server.py:183-194 | With every component pending, whatever their maxima, nothing is graded, the marks are 0 and the status is Critical. |
| Server.CurrentMarksBounds | backend/server.py:183 | With the recorded scores in range and no negative weight among the components that are not pending, a new subject's marks lie in [0, 100]. Pending components may carry anything. |
| Server.SimulateGrade | backend/server.py:210-244 | 404 exactly when the subject is missing. Otherwise the predicted grade is the guarded average over every component with `simulated_scores.get(name, scored)`, the compliance equals it, and the status is its tier. |
| Server.AverageCompliance | backend/server.py:154 | 0 for no subjects. Otherwise the average times the number of subjects is the sum of compliances, with a missing compliance counting as 0. |
| Server.ComplianceSumBounds | backend/server.py:154 | Compliances in [0, 100] sum to between 0 and 100·n. |
| Server.AverageComplianceBounds | backend/server.py:154 | The average of compliances in [0, 100] lies in [0, 100]. |
| Server.UniformComplianceAverage | backend/server.py:154 | Subjects that all carry compliance c average to c. |
| Server.AsDict | backend/server.py:285 | `task_update.dict()` has exactly the six updatable fields as keys, each None exactly when the update leaves that field out. |
| Server.UpdateData | backend/server.py:285 | The update map holds exactly the fields whose value is not None (a `completed` of false included), each with its value, and no other key. |
| Server.UpdateTask | backend/server.py:279-289 | 404 exactly when no task is stored under the id. Otherwise `$set` overwrites exactly the set fields and keeps every other stored field. |
| Server.UpdateIdempotent | backend/server.py:285-286 | Applying the same update twice is the same as applying it once. |
| Server.EmptyUpdateChangesNothing | backend/server.py:285-286 | An update that sets nothing leaves a stored task as it was. |
| Server.Truthy | backend/server.py:298 | Python truthiness of a stored value: a boolean is itself, and exactly the empty string, 0 and False are falsy. |
| Server.ToggleTask | backend/server.py:291-301 | 404 exactly when no task is stored under the id. Otherwise it stores and returns the negation of the stored value's truthiness, with a missing value read as false, and changes no other field. |
| Server.ToggleMissingFlag | backend/server.py:298 | A task stored without a flag becomes completed. |
| Server.ToggleTwiceRestores | backend/server.py:298-299 | Toggling a task whose flag is a boolean twice gives the stored task back. |
| Server.SubmissionStatus | backend/server.py:355-357 | The status is "passed" exactly when every test passed, and "failed" otherwise. |
| Server.MockSubmissionFails | backend/server.py:349-357 | With the fixed results, 2 of 3 tests pass and every submission is "failed". |
| Server.SolvedCount | backend/server.py:418-421 | A user's solved count is at most the number of submissions. |
| Server.Leaderboard | backend/server.py:410-432 | One entry per user, in the order of the query. Ranks run 1..n consecutively. Each entry holds the user's name, points, avatar and solved count. With unique ids at most one entry is flagged as the requesting user. |
| AiServices.Find | backend/ai_services.py:61 | `str.find` returns -1 exactly when the character is absent; otherwise it returns its first index. |
| AiServices.RFind | backend/ai_services.py:62 | `str.rfind` returns -1 exactly when the character is absent; otherwise it returns its last index. |
| AiServices.ExtractSpan | backend/ai_services.py:61-64 | There is no span exactly when the opening character is absent or no closing character follows it. Otherwise the span is the contiguous slice from the first opening to the last closing character, both included. |
| AiServices.AnalyzeScreenshot | backend/ai_services.py:59-84 | The decoded `{…}` span is returned. Without a span, on a JSON error and on any other exception, the result has no subjects and exactly one message, the one the source writes for that case. |
| AiServices.FirstThree | backend/ai_services.py:135 | `[:3]` is the prefix of length min(3, n). |
| AiServices.TacticalInsights | backend/ai_services.py:129-143 | At most three insights: the first three decoded items, in order, when they all validate. Otherwise, and when there is no `[…]` span, a JSON error or a raised error, the result is empty. |
| AiServices.PendingComponents | backend/ai_services.py:105 | Exactly the components whose `pending` is set. |
| AiServices.PendingComponentsAppend | backend/ai_services.py:105 | The filter keeps the original order: it distributes over concatenation. |
| AiServices.Summarize | backend/ai_services.py:101-105 | One subject's summary keeps its name and compliance. Its pending components are exactly the pending ones among its components, and none when it has no components. |
| AiServices.SubjectsSummary | backend/ai_services.py:100-106 | One summary per subject, in order, with name, compliance and pending components. A subject without components has none pending. |
| AiServices.PassedCount | backend/ai_services.py:157 | The passed count is at most the number of results, and equals it exactly when every result passed. |
| AiServices.MentorCounts | backend/ai_services.py:157-158 | passed ≤ total = number of results. |
| Dashboard.BadgeIcon | frontend/src/pages/Dashboard.jsx:9-19 | The six table names give their icons, and every other name gives Trophy (corrected lookup, see Findings). |
| Dashboard.BadgeIconRoundTrip | frontend/src/pages/Dashboard.jsx:10-17 | Every icon is found again under its own key. |
| Dashboard.IconTableKeys | frontend/src/pages/Dashboard.jsx:10-17 | The table's keys are exactly the six icon keys. |
| Dashboard.UnknownNameIsTrophy | frontend/src/pages/Dashboard.jsx:18 | Any name that is not one of the six keys gets Trophy. |
| Dashboard.BadgeIconAsWritten | frontend/src/pages/Dashboard.jsx:9-19 | As written, the lookup returns a non-icon exactly for the names a plain object inherits from Object.prototype. |
| Dashboard.AsWrittenAgreesElsewhere | frontend/src/pages/Dashboard.jsx:18 | On every other name, the code as written and the corrected lookup agree. |
| Dashboard.InheritedNameEscapesFallback | frontend/src/pages/Dashboard.jsx:18 | "toString" skips the Trophy fallback as written, and the corrected lookup gives Trophy. |
| Dashboard.MockBadgeIconsKnown | frontend/src/mock.js:162-169 | Every mock badge names one of the six icons. |
| Dashboard.RarityColour | frontend/src/pages/Dashboard.jsx:21-29 | legendary, epic and rare each get their gradient. The common gradient is given exactly to the other rarities. |
| Dashboard.UnknownRarityIsCommon | frontend/src/pages/Dashboard.jsx:27-28 | An unknown rarity looks exactly like "common". |
| Dashboard.EarnedCount | frontend/src/pages/Dashboard.jsx:87 | The "Badges Earned" count is at most the number of badges. |
| Dashboard.EarnedCountExtremes | frontend/src/pages/Dashboard.jsx:87 | The count equals the number of badges exactly when all are earned, and is 0 exactly when none is. |
| Dashboard.MockBadgesEarned | frontend/src/mock.js:162-169 | The mock badges show 4 earned. |
| Dashboard.ComplianceTextColour | frontend/src/pages/Dashboard.jsx:160-163 | The text colour is the colour of the compliance's tier. |
| Dashboard.ComplianceBarColour | frontend/src/pages/Dashboard.jsx:175-178 | The bar gradient is the gradient of the compliance's tier. |
| Dashboard.ColouringsDistinguishTiers | frontend/src/pages/Dashboard.jsx:160-178 | Each colouring gives the four tiers four different colours. |
| Dashboard.ColoursAgree | frontend/src/pages/Dashboard.jsx:160-178 | Two subjects share a text colour exactly when they share a bar colour, namely when they share a tier. |
| Divergence.SimulationsAgreeWithWeight | backend/server.py:223-238 | With positive total weight, the page's prediction is the back end's simulated grade, with the same status. |
| Divergence.NoWeightDiverges | frontend/src/pages/GradeSimulator.jsx:24 | Without weight, the page shows NaN and the back end 0. Both are Critical. |
| Divergence.UnscoredPendingAddNothing | backend/server.py:178-180 | Pending components that still score 0 add nothing to the weighted score. |
| Divergence.CreateSubjectRescales | backend/server.py:183 | For such a subject, the page and `create_subject` divide the same weighted score: the page by the whole weight, the back end by the non-pending weight. |
| Divergence.ThreeRecordedTwoPending | backend/server.py:178-181 | Three recorded components followed by two pending ones: exactly the first three are graded. |
| Divergence.DataStructuresGraded | frontend/src/mock.js:22-28 | The graded components of "Data Structures" are its first three. |
| Divergence.DataStructuresDiverges | frontend/src/mock.js:22-28 | "Data Structures": the page predicts 1541/30 ≈ 51.37 (Critical), and `create_subject` records 3082/39 ≈ 79.03 (At Risk). |

## Left out

- HTTP routing, CORS, startup seeding and MongoDB access are not modelled. A handler's database read is a parameter and the 404 is a result variant.
- The effects of `insert_one` and `update_one` are left out. `UpdateTask` and `ToggleTask` return the document as the `$set` leaves it.
- The LLM calls (`LlmChat`, `send_message`), the prompt text, `json.loads` and pydantic validation are parameters: a `Reply` and a decoding function. `Raised` also covers any error raised while the prompt is prepared.
- The mentor feedback text is not modelled; only its passed/total figures are.
- Rounding is left out: `round(…, 2)` in `get_user_stats` and `simulate_grade`, and `toFixed(1)` on the page. All arithmetic is exact `real`, so IEEE rounding and overflow are out of scope.
- Grading.WellFormed: the page's simulator and `simulate_grade` divide by every component's `total`, so the model requires every `total` to be positive there. A zero `total` makes the source divide by zero (an exception in Python, NaN or an infinity in JavaScript), and the model does not capture that. `create_subject` divides only by the maxima of components that are not pending, and its model requires only those to be positive (`Server.GradedTotalsPositive`).
- GradeSimulator.SimulateGrade: the map lookup is an own-key lookup. On the page, `simulations` is a plain object, so a component named after an Object.prototype member (such as "toString") would read an inherited function as its score. This is the same quirk as the Findings row, left unmodelled here.
- GradeSimulator.Session.EnterScore: the text is taken as typed. The field is `type="number"`, so the browser hands `onChange` the empty string for any text that is not a valid floating-point number, such as " 7 marks" or "0x1A", and the page then stores 0. The model does not capture that clean-up.
- GradeSimulator.Session.SlideScore: the sliders and fields appear only on pending components. The model lets any name be set, which is a superset.
- GradeSimulator.ParseInt: the white-space set covers the ASCII, no-break, BOM and line/paragraph-separator characters, not the other Unicode space separators. Only the "0x"/"0X" radix switch is modelled. A digit run too long for a double is not rounded.
- StudyPlanner.SortTasks: an insertion sort stands in for the engine's sort. The proved result (a permutation in comparator order) is what any correct sort yields; which one of several equal-key orders appears is left open.
- StudyPlanner.FormatDate: the clock is the `now` parameter. Date arithmetic is integer milliseconds and the division before `Math.ceil` is exact. In doubles the quotient is rounded, which moves the ceiling only when the difference lies within one rounding step of a whole number of days, far below a millisecond for realistic dates.
- Server.CreateSubject: the subject id is a parameter, not a uuid4. `created_at` is not modelled.
- Server.Leaderboard: the query's sort by points, its limit of 50 and `count_documents` are inputs. The users arrive already ordered, and solved counts come from a list of submission records.
- Server.EmptyUpdateChangesNothing: an empty `$set` is taken to leave the document unchanged, as MongoDB 5.0 and later do. Older servers reject `{"$set": {}}`, so `update_task` with an all-None body would answer with an error there.
- Server.ToggleTask: stored values are text, dates, priorities, integers and booleans. A stored `None` is not modelled.
- AiServices.TacticalInsights: the decoded span is a list of items, each valid or not. A JSON object inside `[…]` cannot be the decoded value.
- The colour helpers `getPriorityColor` in the study planner and the difficulty styles in the coding arena are presentation, as are the JSX markup and the static pages.

## Findings

| source | as written | input that shows it | evidently intended | confidence | as-written member | corrected member |
|---|---|---|---|---|---|---|
| frontend/src/pages/Dashboard.jsx:18 | `icons[iconName] \|\| Trophy` reads a plain object literal, so a name inherited from Object.prototype finds a truthy function and skips the fallback | a badge whose icon name is "toString" | any name outside the six icons gets the Trophy icon | low: not executed; the mock badges use only the six known names | Dashboard.InheritedNameEscapesFallback | Dashboard.BadgeIcon |
