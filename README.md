# PrepInter core in Dafny

PrepInter is a mock-interview service. An Express/Mongoose backend stores interviews, users and payments. A React frontend runs the interview screen and the dashboard. This project models the rules inside that glue, and proves what they promise:

- **The interview lifecycle.** An interview is an ordered list of questions.
  - `getNextQuestion` finds the first unanswered question, or marks the interview completed when there is none.
  - `submitAnswer` overwrites one question's answer and feedback in place.
  - Explicit completion records a duration in whole seconds.
  - Get, update and delete are gated on ownership: 404 comes before 403.
  - Creation normalises the category and difficulty and falls back to a fixed question bank.
- **Analytics.**
  - The recommendation heuristic: STAR keywords, length thresholds, and keyword checks conditioned on the question text.
  - The loop that gathers at most ten question/answer pairs.
  - History pagination, the completion rate and month counts, and the 5/5 windows of the performance insights.
- **Payments.**
  - Order creation with the rupee-to-paise conversion.
  - Verification that moves a payment from `created` to `failed` or `paid` and upgrades the user only on a signature match.
  - The subscription's activity and days remaining.
- **Users.**
  - Registration and login validation.
  - The password-reset state machine: OTP, then hashed reset token, then new password.
  - The "new value or keep the old one" merge of profile updates.
- **Error middleware.** Status mapping, the not-found error, and the validation-error reply.
- **Frontend helpers.**
  - The `mm:ss` clock, the countdown clamped at zero, progress capped at 100 and the submit guard.
  - The dashboard's level thresholds, hours/minutes split and default analytics.
  - The carousel index modulo 3.

## How the model is built

Records that the controllers update in place are classes: `InterviewModel.Interview`, `PaymentModel.Payment` and `Store.User`. Each has a `Doc()` snapshot datatype. `Store.Db` holds the three collections as sequences of objects in creation order. The controllers are methods over a `Db`:

- `findOne`/`findById` is the first match in store order.
- "Sort by `createdAt` descending" followed by `findOne` is the last match.
- A newest-first list is the reversed store order.

Code written as loops (the first-unanswered search, the question-index search, the pair-gathering loops, the push-style recommendation builder) is a method with loop invariants. It is proved against a specification function, and the properties are proved as lemmas about that function.

Everything the code obtains from outside is a parameter: LLM replies, `JSON.parse`, HMAC-SHA256, SHA-256, password comparison, the random OTP draw, the random reset token, the payment gateway, mail delivery, the clock and new document ids. Errors thrown after `res.status(n)` are `Err(n, message)` replies.

Code behaviour is followed where a description of the system says otherwise:

- `submitAnswer` never completes an interview.
- `getNextQuestion` sets only `completed`; `completedAt` and `duration` are untouched.
- There is no administrator exception on ownership.
- There is no free-tier interview quota.
- `updateInterview` stamps an already completed interview again.

The tip texts in analyticsController.js begin with emoji whose UTF-8 bytes were saved as Windows-1252 characters. The constants reproduce those characters exactly as the file holds them.

## Model

| member | source | states |
|---|---|---|
| InterviewModel.ParseCategory | backend/models/interviewModel.js:9-13 | exactly the four stored spellings are accepted, case-sensitively, and each maps back to its own spelling |
| InterviewModel.ParseDifficulty | backend/models/interviewModel.js:14-18 | exactly beginner, intermediate and advanced are accepted, and each maps back to its spelling |
| InterviewModel.EnumNamesRoundTrip | backend/models/interviewModel.js:9-18 | every category and difficulty survives being stored and validated again |
| InterviewModel.NewQuestion | backend/models/interviewModel.js:19-41 | a new question keeps its text, is AI-generated, not skipped, and has empty answer and feedback |
| InterviewModel.Interview.constructor | backend/models/interviewModel.js:43-57 | a new interview is not completed, has no completion time, has duration 0 and starts at creation time |
| PaymentModel.ParseStatus | backend/models/paymentModel.js:32-37 | a missing status defaults to created; otherwise only the four enum spellings are accepted, each mapping back to itself |
| PaymentModel.Payment.constructor | backend/models/paymentModel.js:4-37 | a new payment has the given fields and no gateway payment id or signature yet |
| Store.User.constructor | backend/controllers/userController.js:25-31 | a registered user has the default role free, no avatar, no reset state and no subscription |
| InterviewController.GetFallbackQuestions | backend/controllers/interviewController.js:72-78 | the call throws exactly when the key is an inherited `Object.prototype` key; otherwise the result is the first min(count, 5) entries of the chosen bank, in bank order |
| InterviewController.FallbackBankChoice | backend/controllers/interviewController.js:73-77 | the behavioral bank is chosen iff the category is a string whose lower-case form is behavioral; the call throws iff that form is constructor or __proto__, keys every object inherits; every other input, including blank, padded or unknown categories, gets the technical bank |
| InterviewController.KeyOfPresentCategory | backend/controllers/interviewController.js:73-76 | a category whose lower-case form starts with something other than white space is looked up lower-cased and untrimmed |
| InterviewController.GenerateQuestions | backend/controllers/interviewController.js:82-142 | a reply that parses is used as is; no client, a failed call or an unparsable reply gives the fallback, which throws exactly for an inherited prototype key and otherwise is the first min(count, 5) entries of the bank |
| InterviewController.NormalizeCategory | backend/controllers/interviewController.js:152-158 | the stored category is technical or behavioral, and behavioral iff the lower-cased input is behavioral |
| InterviewController.NormalizeDifficulty | backend/controllers/interviewController.js:161 | the normalised difficulty is empty iff the input is missing or empty |
| InterviewController.NormalizedCategoryHasBank | backend/controllers/interviewController.js:73-77 | the stored category technical or behavioral always selects its own bank, so the fallback never throws for it |
| InterviewController.InterviewDrafts | backend/controllers/interviewController.js:183 | `createInterview` asks the generator for 5 questions in the normalised category, and that request always yields drafts |
| InterviewController.ToQuestions | backend/controllers/interviewController.js:185-192 | one schema-default question per draft, in order, carrying the draft's text |
| InterviewController.CreateInterview | backend/controllers/interviewController.js:150-211 | 401 without a user before the 400 for a missing difficulty; every later error, a rejected difficulty or question text, is a 500; nothing is created on any error; success appends exactly one fresh document with the normalised fields, questions from a request for 5, start time now, not completed, and replies 201 |
| InterviewController.CreatedInterviewIsFresh | backend/controllers/interviewController.js:183-193 | a created interview is in progress with duration 0, its category is technical or behavioral, and no question has an answer, feedback or skip mark |
| InterviewController.StoreInterview | backend/controllers/interviewController.js:185-192 | `Interview.create`: exactly one fresh document is appended after the existing ones, started now, not completed, with duration 0, and the other collections are unchanged |
| InterviewController.OwnedInterview | backend/controllers/interviewController.js:216-228 | 404 iff no document has the id; 403 exactly when the first such document belongs to someone else; otherwise the index of the first document with that id, owned by the requester |
| InterviewController.GetInterviewById | backend/controllers/interviewController.js:216-234 | the document is returned only to its owner, with the lookup's 404/403 otherwise |
| InterviewController.DurationSeconds | backend/controllers/interviewController.js:272 | the duration is the whole number of seconds elapsed, and 0 when the clock went backwards |
| InterviewController.CompletedDuration | backend/controllers/interviewController.js:268-274 | completion sets the flag and time, keeps questions and start, and brackets the duration between elapsed milliseconds |
| InterviewController.UpdateInterview | backend/controllers/interviewController.js:251-282 | errors change nothing; only status completed changes the document, and only that document |
| InterviewController.DeleteInterview | backend/controllers/interviewController.js:287-307 | errors change nothing; success removes exactly the owner's document and keeps the order of the rest |
| InterviewController.UserInterviews | backend/controllers/interviewController.js:239-246 | exactly the caller's documents, all of them, from the store |
| InterviewController.NewInterviewListedLast | backend/controllers/interviewController.js:239-246 | the list keeps store order: a new interview of the caller is listed last, and anyone else's leaves the list unchanged |
| InterviewSession.FindNextQuestion | backend/controllers/interviewSessionController.js:24 | the index of the first question without an answer, every earlier one answered; none when all are answered |
| InterviewSession.GetNextQuestion | backend/controllers/interviewSessionController.js:9-45 | with no active interview, 404 and no change; otherwise the newest active interview's first unanswered question, or completed set (and nothing else changed) with the all-answered 404 |
| InterviewSession.ScoreMatchAtMeans | backend/controllers/interviewSessionController.js:131 | the score pattern matches at a position capturing d iff the text there reads `score` in any ASCII case, at most one quote, white space, a colon, white space and then d, a digit run no further digit follows |
| InterviewSession.FeedbackMatchAtMeans | backend/controllers/interviewSessionController.js:130 | the feedback pattern matches at a position capturing t iff the text there reads `feedback` in any ASCII case, at most one quote, white space, a colon, white space, a quote, the quote-free non-empty t and a quote |
| InterviewSession.LeftmostMatch | backend/controllers/interviewSessionController.js:130-131 | the regex match is the leftmost position where the pattern matches |
| InterviewSession.ScoreFromText | backend/controllers/interviewSessionController.js:131-134 | with a match, the score is the value of the digits captured by the leftmost one; without a match it is 5 |
| InterviewSession.FeedbackFromText | backend/controllers/interviewSessionController.js:130-133 | with a match, the feedback is the text captured by the leftmost one, non-empty and quote-free; without a match it is the fixed default |
| InterviewSession.EvaluateAnswer | backend/controllers/interviewSessionController.js:119-142 | a failed call gives the fixed thank-you feedback and score 5; a JSON reply is used; otherwise the regex fallbacks apply |
| InterviewSession.ScoreCaptured | backend/controllers/interviewSessionController.js:131-134 | a text laid out as the score pattern at p, with no such layout earlier, yields exactly the digits there as the score |
| InterviewSession.ScoreAbsent | backend/controllers/interviewSessionController.js:131-134 | a text with the score layout nowhere yields score 5 |
| InterviewSession.FeedbackCaptured | backend/controllers/interviewSessionController.js:130-133 | a text laid out as the feedback pattern at p, with no such layout earlier, yields exactly the quoted text there as the feedback |
| InterviewSession.FeedbackAbsent | backend/controllers/interviewSessionController.js:130-133 | a text with the feedback layout nowhere yields the fixed default feedback |
| InterviewSession.ScoreLeadCaptured | backend/controllers/interviewSessionController.js:131-134 | a reply beginning `score: <digits>` yields exactly those digits |
| InterviewSession.FeedbackLeadCaptured | backend/controllers/interviewSessionController.js:130-133 | a reply beginning `feedback: '<text>'` yields exactly that text |
| InterviewSession.FindQuestionIndex | backend/controllers/interviewSessionController.js:70-74 | -1 iff no question has the id, otherwise the first index with it |
| InterviewSession.WithAnswerOverwrites | backend/controllers/interviewSessionController.js:145-146 | the last answer written wins; other questions and the completed flag are untouched |
| InterviewSession.AnsweringAdvances | backend/controllers/interviewSessionController.js:145-146 | answering the first unanswered question with a non-empty answer moves the next question strictly later, or leaves none |
| InterviewSession.SubmitAnswer | backend/controllers/interviewSessionController.js:50-159 | 400 without question id or answer and 404 without a matching active interview, neither changing anything; success overwrites only that question's answer and feedback and never completes the interview |
| Analytics.GenerateRecommendations | backend/controllers/analyticsController.js:175-223 | the pushed tips, joined by blank lines, are exactly the recommendation list |
| Analytics.LengthTip | backend/controllers/analyticsController.js:192-196 | the real-valued average below 100 or above 500 is the integer test total < 100n or total > 500n |
| Analytics.RecommendationShape | backend/controllers/analyticsController.js:207-222 | nothing triggered gives exactly the five generic tips; otherwise the one to four triggered tips followed by the two closing tips, 3 to 6 entries |
| Analytics.StarTipIff | backend/controllers/analyticsController.js:182-190 | the STAR tip appears iff the joined lower-cased answers miss one of situation, task, action, result |
| Analytics.StarAcrossAnswers | backend/controllers/analyticsController.js:182-188 | the four STAR words may come from different answers: the joined text has each iff some answer has each |
| Analytics.LengthTipIff | backend/controllers/analyticsController.js:179-196 | the detail tip appears iff the average is below 100, the concise tip iff above 500, never both |
| Analytics.KeywordInSomeAnswer | backend/controllers/analyticsController.js:182-185 | joining with spaces finds a keyword iff one answer holds it |
| Analytics.TechnicalTipIff | backend/controllers/analyticsController.js:198-200 | the technical tip appears iff no answer mentions api, database or algorithm and some question mentions technical |
| Analytics.TeamTipIff | backend/controllers/analyticsController.js:202-204 | the team tip appears iff no answer mentions team, communicate or collaborate and some question mentions team |
| Analytics.PairsAreAnswered | backend/controllers/analyticsController.js:254-255 | every gathered pair's answer is non-blank after trimming |
| Analytics.HasAnswer | backend/controllers/analyticsController.js:254 | an answer is truthy and non-blank after trimming iff it counts as answered |
| Analytics.GatherFrom | backend/controllers/analyticsController.js:253-258 | one interview's answered questions are appended in order, up to ten pairs in all |
| Analytics.GatherPairs | backend/controllers/analyticsController.js:251-260 | the gathered pairs are the first ten answered pairs of the interviews, in interview and question order |
| Analytics.RecentCompleted | backend/controllers/analyticsController.js:247-250 | the newest min(5, n) of the caller's n completed interviews, newest first |
| Analytics.NewestCompletedFirst | backend/controllers/analyticsController.js:247-250 | a newly stored completed interview of the caller becomes the first of the recent ones ahead of the previous ones, cut back to five; any other new document leaves them unchanged |
| Analytics.GetRecommendations | backend/controllers/analyticsController.js:245-272 | the reply is the cold-start advice without pairs, otherwise the recommendations for the first ten pairs of the newest five completed interviews |
| Analytics.GatheredPairs | backend/controllers/analyticsController.js:251-260 | at most ten pairs are analysed, each with a non-blank answer |
| Analytics.PageParam | backend/controllers/analyticsController.js:114-115 | a missing, unparsable or zero value takes the default; any other integer is kept |
| Common.CeilDiv | backend/controllers/analyticsController.js:132 | `Math.ceil` of the quotient, bracketed for either sign of the divisor |
| Analytics.PaginationOf | backend/controllers/analyticsController.js:130-136 | hasNext iff page < totalPages, hasPrev iff page > 1, and totalPages pages of limit hold the total with less than one page spare |
| Analytics.HasNextIffMore | backend/controllers/analyticsController.js:116-135 | for positive page and limit, hasNext iff documents remain after this page, and hasPrev iff this page skips some |
| Analytics.EveryDocumentOnAPage | backend/controllers/analyticsController.js:116-132 | each document lies on a page no later than totalPages |
| Analytics.NewestFirst | backend/controllers/analyticsController.js:118-119 | the caller's interviews in reverse store order, all of them |
| Analytics.Summary | backend/controllers/analyticsController.js:122 | history keeps ids, texts and status but no answer or feedback |
| Analytics.GetInterviewHistory | backend/controllers/analyticsController.js:112-139 | a negative skip is a database error; otherwise the caller's interviews newest first, skipping (page-1)*limit and keeping at most abs(limit), with the pagination for the caller's total |
| Analytics.CompletionRate | backend/controllers/analyticsController.js:94 | 0 without interviews, otherwise the rate times the total is 100 times the completed count, always within 0 and 100 |
| Analytics.GetUserProgress | backend/controllers/analyticsController.js:23-94 | the totals count the caller's interviews and completed ones, completed never exceeding total; the rate is the completion rate of those two counts; the month's figures count the caller's interviews of that month and the completed ones among them and sum their durations |
| Analytics.ProgressCounts | backend/controllers/analyticsController.js:86-93 | the month's completed count is at most its interview count, which is at most the total; and at most the completed total |
| Analytics.MonthDurationNonNegative | backend/controllers/analyticsController.js:89 | the month's total time is never negative when stored durations are not |
| Common.FilterAppend | backend/controllers/analyticsController.js:87 | filtering keeps the order of what it keeps: filtering a concatenation concatenates the filtered parts |
| Analytics.SumDurationsAppend | backend/controllers/analyticsController.js:89 | the duration sum of two runs of interviews is the sum of their sums |
| Analytics.SessionScores | backend/controllers/analyticsController.js:153-155 | one mean score per session, in order |
| Analytics.SessionScore | backend/controllers/analyticsController.js:153-155 | a session without scores averages 0; otherwise the mean times the number of scores is their sum |
| Analytics.InsightsOf | backend/controllers/analyticsController.js:144-172 | at most ten sessions; no sessions give all zeros; recentAverage and previousAverage are the means of the two windows of newest-first session scores and averageDuration the mean duration of the ten in minutes; previousAverage and improvement are 0 unless there are more than five sessions, and then improvement is recent minus previous |
| Analytics.RecentSessions | backend/controllers/analyticsController.js:147-150 | the newest min(10, n) sessions, position i holding the i-th newest |
| Analytics.RecentScores | backend/controllers/analyticsController.js:153-158 | min(5, n) values, the i-th being the mean score of the i-th newest session (0 for one without scores) |
| Analytics.PreviousScores | backend/controllers/analyticsController.js:153-159 | with more than five sessions, min(5, n - 5) values, the i-th being the mean score of the (5 + i)-th newest session; none otherwise |
| Analytics.RecentWindow | backend/controllers/analyticsController.js:158 | with any sessions, recentAverage is the sum of the mean scores of the newest min(5, n) sessions divided by min(5, n) |
| Analytics.PreviousWindow | backend/controllers/analyticsController.js:159 | with more than five sessions, previousAverage is the sum of the mean scores of the sessions at newest-first positions 5 to min(10, n) - 1, divided by their number min(5, n - 5) |
| Analytics.DurationWindow | backend/controllers/analyticsController.js:164-165 | with any sessions, averageDuration is the summed duration of the newest min(10, n) sessions divided by their number and by 60 |
| Analytics.ScoreWindowSum | backend/controllers/analyticsController.js:153-159 | any run of newest-first session means, from any position, sums to the matching newest-first sum of the sessions |
| Analytics.MeanOf | backend/controllers/analyticsController.js:158-159 | the mean times the count is the sum, and no values give 0 |
| Analytics.InsightsWithinScale | backend/controllers/analyticsController.js:153-162 | with scores between 0 and hi, both window averages lie between 0 and hi |
| PaymentController.ToPaise | backend/controllers/paymentController.js:29 | the gateway amount is a whole number of hundreds that divides back to the rupee amount |
| PaymentController.OrderIdsDiffer | backend/controllers/paymentController.js:25 | orders of the same user created at different times get different order ids |
| PaymentController.CreateOrder | backend/controllers/paymentController.js:16-60 | a missing or zero amount gives 400, and a gateway failure, an order without an id or an empty currency (both required by the payment schema) give 500, creating nothing; success appends one payment with status created, currency defaulting to INR, and replies with the gateway order |
| PaymentController.SettleOutcome | backend/controllers/paymentController.js:87-100 | a mismatch marks the payment failed and stores nothing; a match stores the ids and marks it paid, and settling again changes nothing |
| PaymentController.Upgraded | backend/controllers/paymentController.js:103 | the requesting user's role becomes paid and every other user is unchanged |
| PaymentController.SettlePayment | backend/controllers/paymentController.js:87-100 | only the matched payment changes, as settling says |
| PaymentController.UpgradeUser | backend/controllers/paymentController.js:103 | the users become the upgraded users |
| PaymentController.VerifyPayment | backend/controllers/paymentController.js:65-110 | missing details give 400 and an unknown order 404, changing nothing; a mismatch marks the payment failed with 400 and no user change; a match settles the payment and upgrades the user |
| PaymentController.SubscriptionOf | backend/controllers/paymentController.js:133-141 | active iff paid with an end in the future; days remaining 0 when inactive and at least 1 when active |
| PaymentController.GetSubscriptionStatus | backend/controllers/paymentController.js:125-143 | 404 iff no user has the id, otherwise that user's subscription |
| PaymentController.UpgradedUserIsPaid | backend/controllers/paymentController.js:103-133 | after a verified payment the user reads as paid |
| UserController.RegisterUser | backend/controllers/userController.js:8-32 | missing fields or a taken email give 400 and create nothing; success appends one fresh user with the default role and replies 201 |
| UserController.RegisteredEmailIsTaken | backend/controllers/userController.js:14-18 | once registered, an email is found again, so a second registration with it is refused |
| UserController.LoginUser | backend/controllers/userController.js:34-54 | missing fields give 400; an unknown email and a wrong password give the same 401; success replies with the user |
| UserController.DecimalLength | backend/controllers/userController.js:68 | a number between 10^(k-1) and 10^k - 1 has k decimal digits |
| UserController.OneTimeCode | backend/controllers/userController.js:68 | the code is six digits whose value lies in [100000, 999999] |
| UserController.ResetFlow | backend/controllers/userController.js:69-140 | an issued OTP matches until expiry; redeeming it clears it and issues a token; the reset clears the token so it works once, and sets the password |
| UserController.ForgotPassword | backend/controllers/userController.js:56-95 | 400 without email; an unknown email gets the generic 200 and no change; a known one stores an OTP expiring in ten minutes and replies by mail outcome |
| UserController.VerifyOtp | backend/controllers/userController.js:97-119 | for string body values, 400 without fields or on a wrong or expired OTP, changing nothing; success clears the OTP and stores the token hash expiring in ten minutes |
| UserController.OperatorBodyMatchesAnyCode | backend/controllers/userController.js:103-107 | as written, a body whose otp is the object `{"$ne": "0"}` satisfies the lookup for any pending six-digit code of that email |
| UserController.StrictQueryNeedsTheCode | backend/controllers/userController.js:103-107 | with string values only, the lookup matches iff the email and the code are the user's own and the code is unexpired |
| UserController.ResetPassword | backend/controllers/userController.js:122-142 | 400 without fields or on a wrong or expired token, changing nothing; success sets the password and clears the token |
| UserController.MergeKeeps | backend/controllers/userController.js:192-194 | a missing or empty value keeps the old one, a non-empty field stays non-empty, and merging twice equals merging once |
| UserController.MergeProfile | backend/controllers/userController.js:192-198 | name, email and avatar take the new value only when it is non-empty; the password changes only when one is supplied; id, role, reset codes and tokens with their expiries, and the subscription end are kept |
| UserController.EmptyProfileUpdate | backend/controllers/userController.js:192-198 | an update with nothing or only empty strings leaves the user unchanged |
| UserController.UpdateUserProfile | backend/controllers/userController.js:188-215 | 404 for an unknown requester with no change; otherwise only that user is merged |
| UserController.MergeAdmin | backend/controllers/userController.js:221-223 | name, email and role take the new value only when non-empty; id, password, avatar, reset codes and tokens with their expiries, and the subscription end are kept |
| UserController.UpdateUser | backend/controllers/userController.js:217-237 | 404 for an unknown id with no change; otherwise only that user is merged |
| ErrorMiddleware.StatusFor | backend/middleware/errorMiddleware.js:3 | an error reply is never 200: 200 becomes 500, any other status is kept |
| ErrorMiddleware.ErrorHandler | backend/middleware/errorMiddleware.js:2-15 | the reply carries the error's message and the error flag; the stack is withheld exactly in production |
| ErrorMiddleware.NotFound | backend/middleware/errorMiddleware.js:18-22 | status 404 and an error naming the URL |
| ErrorMiddleware.NotFoundReply | backend/middleware/errorMiddleware.js:18-22 | a not-found error passed on to the error handler keeps its 404 and names the URL |
| ErrorMiddleware.Messages | backend/middleware/errorMiddleware.js:27 | one message per field error, in order |
| ErrorMiddleware.ValidationErrorHandler | backend/middleware/errorMiddleware.js:25-35 | a ValidationError is answered 400 with every field's message; anything else is passed on unchanged |
| ErrorMiddleware.HandlerChain | backend/middleware/errorMiddleware.js:25-35 | in sequence, a validation error gets 400 with its details, and any other error goes out with the error handler's non-200 status and its own message |
| InterviewPage.FormatTime | frontend/src/components/InterviewPage.jsx:7-11 | a colon three from the end, and five characters below 100 minutes |
| InterviewPage.FormatTimeRoundTrip | frontend/src/components/InterviewPage.jsx:7-11 | the text reads back as the time: minutes before the colon, seconds below 60 after it |
| InterviewPage.PaddedValue | frontend/src/components/InterviewPage.jsx:10 | zero padding keeps a digit string's value |
| InterviewPage.Tick | frontend/src/components/InterviewPage.jsx:42 | one tick lowers the clock by one second and never below zero |
| InterviewPage.TicksClamp | frontend/src/components/InterviewPage.jsx:40-42 | n ticks leave max(start - n, 0) |
| InterviewPage.ClockRunsOut | frontend/src/components/InterviewPage.jsx:21-42 | a fresh question's time is up after exactly 599 ticks |
| InterviewPage.NextProgress | frontend/src/components/InterviewPage.jsx:61 | progress rises by 10, capped at 100, and never falls |
| InterviewPage.SubmitProceeds | frontend/src/components/InterviewPage.jsx:73 | submission proceeds iff a question is shown and the answer is not blank |
| InterviewPage.SubmitDisabled | frontend/src/components/InterviewPage.jsx:266 | the button is disabled iff time is up, a submission is running or the answer is blank |
| InterviewPage.SentAnswersAreTruthy | frontend/src/components/InterviewPage.jsx:73-79 | an answer the screen sends is never refused by the server as missing |
| InterviewPage.InterviewScreen.constructor | frontend/src/components/InterviewPage.jsx:21-25 | the clock starts at 599 seconds and progress at 0 |
| InterviewPage.InterviewScreen.OnTick | frontend/src/components/InterviewPage.jsx:41-43 | the clock ticks and stays within range; progress is untouched |
| InterviewPage.InterviewScreen.OnQuestionLoaded | frontend/src/components/InterviewPage.jsx:40-62 | the clock restarts; progress moves on only when the reply names its interview |
| Dashboard.LevelOf | frontend/src/components/Dashboard.jsx:126 | Advanced iff the rate exceeds 70, Intermediate iff it lies in (40, 70], Beginner otherwise, including no rate |
| Dashboard.LevelMonotone | frontend/src/components/Dashboard.jsx:126 | a higher completion rate never gives a lower level |
| Dashboard.HoursMinutes | frontend/src/components/Dashboard.jsx:154 | whole hours and leftover minutes below 60 account for the duration to the minute |
| Dashboard.Display | frontend/src/components/Dashboard.jsx:126-154 | missing figures show as 0 and a missing rate as Beginner |
| Dashboard.DefaultDisplay | frontend/src/components/Dashboard.jsx:32-36 | the fallback analytics display all zeros at level Beginner with no categories |
| Dashboard.UpgradeOffer | frontend/src/components/Dashboard.jsx:204-211 | the upgrade button shows for a newly registered user and not for a paid or unknown one |
| HowItWorks.NextIndex | frontend/src/components/HowItWorks.jsx:26-28 | the next slide, wrapping from the last to the first |
| HowItWorks.PrevIndex | frontend/src/components/HowItWorks.jsx:30-32 | the previous slide, wrapping from the first to the last |
| HowItWorks.NextPrevInverse | frontend/src/components/HowItWorks.jsx:26-32 | next and previous undo each other, and three nexts return to the start |
| HowItWorks.Carousel.constructor | frontend/src/components/HowItWorks.jsx:24 | the carousel starts on the first slide |
| HowItWorks.Carousel.HandleNext | frontend/src/components/HowItWorks.jsx:26-28 | the index moves to the next slide and stays in range |
| HowItWorks.Carousel.HandlePrev | frontend/src/components/HowItWorks.jsx:30-32 | the index moves to the previous slide and stays in range |

## Left out

- LLM calls, `JSON.parse`, HMAC-SHA256, SHA-256, bcrypt password comparison, JWT issue, `Math.random` and `crypto.randomBytes` are parameters: their results are inputs to the model.
- Mail transport: `ForgotPassword` takes whether the mail was sent as an input.
- Floating point: scores, averages and the completion rate are exact reals, and `toFixed(1)` rounding and string formatting of them are not modelled.
- Analytics.GetUserProgress: the category breakdown, the six-month aggregation and the average score (aggregation pipelines over stored sessions) are not modelled, and the calendar month range is a predicate parameter.
- Analytics.GetInterviewHistory: a negative skip is the database's error with its message as a parameter, and a negative limit is taken as its absolute value, as the database driver does; other driver behaviour is not modelled.
- The `summary` string built in `getRecommendations` is never used and is not modelled.
- `getLatestInterview`, `getPaymentHistory`, `getUsers`, `getUserProfile`, `getUserById`, `startInterview` (a forward to `createInterview`) and the skip/complete handlers are plain reads or forwards without rules of their own.
- Lower-casing is ASCII-only, and string lengths count code points rather than UTF-16 units.
- Amounts are integers; a fractional rupee amount is not modelled.
- Invalid object ids (Mongoose cast errors) are not modelled: a lookup by an unknown id simply finds nothing.
- `updateInterview` ignores the request's `answers`, since it is not a field of the schema; the model drops it the same way.
- The fallback question bank's `explanation` texts are not fields of the interview schema and are never stored; the model keeps only the question texts.
- The user schema file (backend/models/userModel.js) is not part of this model: the user's fields are the ones the controllers read and write, and password hashing on save is not modelled.
- `errorHandler` and `notFound` are not mounted by backend/server.js; the handlers are modelled as written, and the controllers' thrown errors are modelled as the replies these handlers would send.
- Concurrency between requests and the two separate clock reads of `getSubscriptionStatus` (one `now` stands for both) are not modelled.
- PaymentController.SubscriptionOf: `isActive` is a boolean; the JSON's `null` for a missing end date is not distinguished from `false`.
- The carousel slide contents and the dashboard's layout and styling are not modelled.
- VerifyOtp and every other endpoint (CreateInterview, SubmitAnswer, CreateOrder, VerifyPayment, RegisterUser, LoginUser, ForgotPassword, ResetPassword, UpdateUserProfile, UpdateUser) take their body fields as strings or absent values. A body field of another JSON type is not modelled: a non-string category or difficulty makes `toLowerCase` throw before the `try` block, so the request ends in a 500 from the error handling rather than in any reply the model gives (backend/controllers/interviewController.js:155, 161), and an object email or code becomes a query operator in the lookups (backend/controllers/userController.js:14, 40, 62, 103-107). For VerifyOtp the operator case is modelled by the query predicates `RawOtpQuery` and `StrictOtpQuery` (see Findings), not by the method.
- UserController.Reply: `loginUser` and `updateUserProfile` also send `interviewsTaken`, a field of the user schema that the controllers never write and that the model's user document does not hold, and all four user replies send a JWT `token`; neither is in `UserReply`. `BriefReply`, without the avatar, is what `registerUser` and `updateUser` send.
- ScoreFromText: the score is the exact value of the captured digits. `parseInt` of a run of more than 15 digits loses precision in floating point, and that rounding is not modelled.

## Findings

| source | as written | input that shows it | evidently intended | confidence | as-written member | corrected member |
|---|---|---|---|---|---|---|
| backend/controllers/userController.js:103-107 | the body's `email` and `otp` go into the lookup unchecked, so an object value becomes a query operator | body `{"email": "<a registered email>", "otp": {"$ne": "0"}}` while a code is pending for that email | only the six-digit code mailed to the user unlocks the reset token | not executed | UserController.OperatorBodyMatchesAnyCode | UserController.StrictQueryNeedsTheCode |
