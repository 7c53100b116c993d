# Samply, modelled in Dafny

Samply is a survey-exchange web application. Researchers publish surveys, each hosted on an external form. Respondents take those surveys and confirm completion. The researcher then approves or rejects each submission, and an approval credits the respondent with the survey's points. Researchers pay for a new survey out of their own points balance, and a new researcher account starts with 100 points. All state lives in the browser's storage under four keys: the users, the signed-in user, the surveys and the submissions.

This project models the state-changing logic of that application and proves properties about it:

- **`Auth`** (`auth_context.dfy`): the authentication context.
  - `Store` is a class with one field per storage key. A key may be missing; that is represented as `None`.
  - Its methods are `login`, `register`, `logout`, `updateUserProfile` and `updateUserPoints`. Each states the store's whole new state, given by pure functions (`Authenticate`, `Enroll`, `Merge`, `MergeWhereId`, `SetPointsWhereId`).
- **`ResearcherDashboard`**: the deadline sweep, survey creation against the author's balance, closing a survey, and the researcher's own filtered list.
- **`SurveyDetail`**: the page a respondent opens to take a survey.
  - It loads the survey and the respondent's earlier submission, and records a new pending submission on confirmation.
  - The page state is the class `DetailPage`.
- **`SurveyResponses`**: the author's review page.
  - Loading is subject to ownership.
  - Approving marks the submission, bumps the response count and credits the respondent. Rejecting only marks the submission.
  - The page state is the class `ResponsesPage`.
- **`RespondentDashboard`**: the available and completed lists, and topic selection.
- **`SurveyCard`**: the "posted ... ago" label and the button-visibility rules.
- **`RegisterForm`**: the two-step registration form (class `Form`) and its submission checks.
- **Supporting modules**:
  - `Records`: the records shared by all pages.
  - `Seqs`: `filter` and `map` over sequences, with the subsequence relation.
  - `Text`: `trim`, `toLowerCase` and `includes` as the search boxes use them.

Times are integers (milliseconds since the epoch). Identifiers that the application derives from `Date.now()` are parameters.

The model follows the code as written, including where the code does less than the surrounding prose suggests:

- Approving does not check that the submission is still pending. Only the rendered buttons enforce that.
- An approval credits the respondent even when the survey is closed. The page's own copy of the response count goes up by one regardless of status, while the stored count goes up only for an open survey.
- When the surveys key is missing, an approval marks the submission and stops there, without awarding points.
- Confirming completion checks neither for an earlier submission nor for an open survey.
- Ownership of a survey is decided by the researcher's name, not by an id.
- Closing a survey refunds nothing.
- `updateUserPoints` replaces the balance rather than adding to it.

## Model

| member | source | states |
|---|---|---|
| Records.Reward | src/pages/SurveyResponses.tsx:187 | the reward of a survey is its points when they are present and non-zero, and 10 otherwise; never 0 |
| Records.FindSurvey | src/pages/SurverDetail.tsx:38 | `find` by id: None exactly when no survey has the id, otherwise the first index holding it |
| Text.Lower | src/pages/RespondentDashboard.tsx:157-160 | lower-casing keeps the length and maps each Latin capital to its own small letter (the one at the same offset in the alphabet), leaving other characters alone |
| Text.LowerIdempotent | src/pages/RespondentDashboard.tsx:157-160 | lower-casing twice is lower-casing once |
| Text.IsBlank | src/pages/RespondentDashboard.tsx:156 | `!query.trim()`: the query holds only ECMAScript white space and line terminators |
| Text.MatchesQuery | src/pages/RespondentDashboard.tsx:157-161 | the lower-cased query occurs in the lower-cased title or the lower-cased description |
| Text.SearchIgnoresQueryCase | src/pages/ResearcherDashboard.tsx:142-147 | the search test gives the same answer for a query and its lower-cased form |
| Text.CaseInsensitiveOccurrenceMatches | src/pages/RespondentDashboard.tsx:156-161 | a title whose text at some position equals the query up to the case of Latin letters matches it |
| Text.VerbatimOccurrenceMatches | src/pages/RespondentDashboard.tsx:156-161 | a title containing the query verbatim always matches it |
| Auth.FindByCredentials | src/contexts/AuthContext.tsx:50-52 | None exactly when no account has this email and password; otherwise the first account that has both |
| Auth.Authenticate | src/contexts/AuthContext.tsx:45-64 | "No users found" exactly when the users key is missing; otherwise success iff some account has the credentials, the signed-in user being the first such account's profile, without its password |
| Auth.NewAccount | src/contexts/AuthContext.tsx:77-86 | the new account has the given id, name, email, institution and password; its role defaults to respondent; its topics are the given ones, or none when none are given; it starts with 100 points if and only if it is a researcher, and 0 otherwise |
| Auth.Enroll | src/contexts/AuthContext.tsx:69-89 | refused iff the email is already taken; otherwise the old list plus exactly the new account at the end; emails stay unique |
| Auth.Merge | src/contexts/AuthContext.tsx:106 | every field the patch sets is taken from it and every other field is kept |
| Auth.EmptyPatchIsIdentity | src/contexts/AuthContext.tsx:106 | an empty patch changes nothing |
| Auth.MergeWhereId | src/contexts/AuthContext.tsx:111-118 | the patch reaches exactly the accounts with the session's id, keeping their passwords; other accounts are untouched |
| Auth.SetPointsWhereId | src/contexts/AuthContext.tsx:130-137 | the balance of exactly the accounts with that id is replaced; nothing else changes |
| Auth.SetPointsIsPointsPatch | src/contexts/AuthContext.tsx:122-138 | a points update equals the profile update whose patch sets only the points |
| Auth.Store.constructor | src/contexts/AuthContext.tsx:34-42 | the store holds what storage held at start-up |
| Auth.Store.Login | src/contexts/AuthContext.tsx:45-64 | the outcome is `Authenticate` on the stored users; on success the session is the account found, on failure it is unchanged; no collection changes |
| Auth.Store.Register | src/contexts/AuthContext.tsx:67-94 | a taken email is refused with nothing changed; otherwise exactly the new account is appended (a missing key read as empty), as `Enroll` gives, and becomes the session; unique emails are preserved |
| Auth.Store.Logout | src/contexts/AuthContext.tsx:97-100 | the session is cleared and nothing else changes |
| Auth.Store.UpdateUserProfile | src/contexts/AuthContext.tsx:103-119 | without a session nothing changes; otherwise the patch is merged into the session and, when the key exists, into the stored accounts with its id |
| Auth.Store.UpdateUserPoints | src/contexts/AuthContext.tsx:122-138 | without a session nothing changes; otherwise the session's balance and the stored balance for its id are set to the value |
| ResearcherDashboard.CloseAt | src/pages/ResearcherDashboard.tsx:59 | closing sets the status to closed and stamps the closing time, and changes no other field |
| ResearcherDashboard.Swept | src/pages/ResearcherDashboard.tsx:54-63 | exactly the open surveys whose deadline has passed are closed at `now`; all others are kept; none is left overdue |
| ResearcherDashboard.SweptUnchangedIffNoneOverdue | src/pages/ResearcherDashboard.tsx:52-65 | the sweep changes the list if and only if some survey is overdue |
| ResearcherDashboard.SweepIdempotent | src/pages/ResearcherDashboard.tsx:44-76 | a second sweep at the same instant changes nothing |
| ResearcherDashboard.SweepSurveys | src/pages/ResearcherDashboard.tsx:52-63 | the loop yields the swept list, and raises `hasChanges` iff some survey was overdue |
| ResearcherDashboard.CheckExpiredSurveys | src/pages/ResearcherDashboard.tsx:44-72 | with no surveys key, or nothing overdue, storage is unchanged; otherwise the surveys key holds the swept list; users, session and submissions are untouched |
| ResearcherDashboard.CoerceNumber | src/pages/ResearcherDashboard.tsx:164-169 | a number field that does not parse becomes 0, a parsed one keeps its value |
| ResearcherDashboard.NonNumericPointsRefused | src/pages/ResearcherDashboard.tsx:164-169 | a draft whose points did not parse is always refused |
| ResearcherDashboard.CheckDraft | src/pages/ResearcherDashboard.tsx:195-222 | the checks in order: missing information iff a field is empty or no topic is chosen; then invalid points iff the points are not positive; then insufficient points iff the balance is 0 or below the points; an accepted draft leaves a non-negative balance |
| ResearcherDashboard.NewSurvey | src/pages/ResearcherDashboard.tsx:224-238 | the new survey is open, has no responses, carries the draft's fields, the author's name and institution, and pays exactly the draft's points |
| ResearcherDashboard.AddSurvey | src/pages/ResearcherDashboard.tsx:192-264 | without a session, or with a refused draft, nothing changes and the reason is returned; otherwise exactly the new survey is appended, and the author's balance drops by its points, in the session and in storage, staying non-negative |
| ResearcherDashboard.CloseById | src/pages/ResearcherDashboard.tsx:269-274 | exactly the surveys with that id are closed and stamped, whatever their status; no other survey changes |
| ResearcherDashboard.CloseSurvey | src/pages/ResearcherDashboard.tsx:266-283 | without a session nothing changes; otherwise the surveys key holds the list with that survey closed; no balance changes |
| ResearcherDashboard.OwnSurveys | src/pages/ResearcherDashboard.tsx:139-148 | the list keeps the stored order and holds exactly the surveys under the researcher's name that match a non-blank query, each with every copy it has in the store |
| ResearcherDashboard.OwnSurveyView | src/pages/ResearcherDashboard.tsx:136-151 | with no user or no surveys the previous list stays; otherwise it is the researcher's own list |
| SurveyDetail.FindSubmission | src/pages/SurverDetail.tsx:46-48 | None exactly when the user has no submission for the survey; otherwise the first such submission |
| SurveyDetail.LoadSurvey | src/pages/SurverDetail.tsx:26-80 | not signed in, no surveys key and unknown id are the three failures, and a survey found by id always loads, as the first survey with that id; a submission is shown iff the user has one for this survey, and it is the user's first one |
| SurveyDetail.CompletionOffered | src/pages/SurverDetail.tsx:165-167 | the completion controls show to a respondent on an open survey with no submission on record |
| SurveyDetail.NewSubmission | src/pages/SurverDetail.tsx:90-98 | the new submission belongs to this survey and user, carries their name and email and the time, and is pending |
| SurveyDetail.LoadAfterConfirmFindsSubmission | src/pages/SurverDetail.tsx:85-111 | after confirming, a fresh load finds the user's submission and the completion controls are not offered |
| SurveyDetail.DetailPage.constructor | src/pages/SurverDetail.tsx:14-22 | the page starts with no survey, no submission and a pending status |
| SurveyDetail.DetailPage.Load | src/pages/SurverDetail.tsx:32-80 | the outcome is `LoadSurvey`; on success the survey is shown and an earlier submission raises `hasSubmitted` with its status; on failure the page state is unchanged |
| SurveyDetail.DetailPage.ConfirmCompletion | src/pages/SurverDetail.tsx:85-111 | exactly one pending submission is appended after the existing ones; nothing else in storage changes; afterwards the completion controls are not offered |
| SurveyResponses.LoadResponses | src/pages/SurveyResponses.tsx:47-121 | no user, a non-researcher, no surveys key and an unknown id each give their own failure; a survey found by id is refused iff another researcher's name is on it, and otherwise loads as the first survey with that id; the rows are exactly that survey's submissions, every copy, in stored order |
| SurveyResponses.ReviewActionsOffered | src/pages/SurveyResponses.tsx:361 | the Approve and Reject buttons show only on a pending row |
| SurveyResponses.MarkStatus | src/pages/SurveyResponses.tsx:136-141 | exactly the submissions with that id get the new status; every other submission is kept |
| SurveyResponses.ReviewEndsReviewability | src/pages/SurveyResponses.tsx:361-379 | once reviewed, a row no longer offers the Approve and Reject buttons; the buttons of other rows are unchanged |
| SurveyResponses.CountApproval | src/pages/SurveyResponses.tsx:159-167 | the stored count of that survey goes up by one only when it is open; every other survey is kept |
| SurveyResponses.Credit | src/pages/SurveyResponses.tsx:180-193 | the amount is added to exactly the accounts with the respondent's id |
| SurveyResponses.CreditTotal | src/pages/SurveyResponses.tsx:180-193 | the total of all balances rises by the amount once for each account with that id, and by nothing else |
| SurveyResponses.PageCountMatchesStoredIffOpen | src/pages/SurveyResponses.tsx:159-177 | after an approval the stored count equals the page's count (loaded count plus one) if and only if the survey is open; for a closed survey the stored count stays put |
| SurveyResponses.ResponsesPage.constructor | src/pages/SurveyResponses.tsx:39-45 | the page starts with no survey and no rows |
| SurveyResponses.ResponsesPage.Load | src/pages/SurveyResponses.tsx:58-121 | the outcome is `LoadResponses`; on success the survey and its rows are shown; on failure the page is unchanged |
| SurveyResponses.ResponsesPage.Approve | src/pages/SurveyResponses.tsx:127-212 | every early return is covered; the submission is marked approved in storage and on the page; the stored count follows `CountApproval` and the page count goes up by one; accounts are credited by the reward; the signed-in respondent's balance becomes the session balance plus the reward |
| SurveyResponses.ResponsesPage.Reject | src/pages/SurveyResponses.tsx:215-238 | with no submissions key nothing changes; otherwise the submission is marked rejected in storage and on the page, and no survey, account or balance changes |
| Seqs.Filter | src/pages/RespondentDashboard.tsx:153 | `filter` keeps every copy of each element that passes, in the original order, and nothing else |
| RespondentDashboard.SubmittedIds | src/pages/RespondentDashboard.tsx:138-146 | an id is listed iff the user has a submission for it, in any status |
| RespondentDashboard.ApprovedIds | src/pages/RespondentDashboard.tsx:115-123 | an id is listed iff the user has an approved submission for it |
| RespondentDashboard.Available | src/pages/RespondentDashboard.tsx:150-172 | the list keeps stored order and holds exactly the open surveys not submitted to that match a non-blank query and share a topic when topics are selected, each with every copy it has in the store |
| RespondentDashboard.SubmittedNeverAvailable | src/pages/RespondentDashboard.tsx:137-153 | a survey with any submission from the user, pending, approved or rejected, is never offered |
| RespondentDashboard.AvailableCardsOfferParticipation | src/pages/RespondentDashboard.tsx:302-333 | every available card offers Participate; no completed card does |
| RespondentDashboard.AvailableView | src/pages/RespondentDashboard.tsx:134-175 | with no surveys or no user the previous list stays; otherwise it is exactly `Available` for the ids the user has submitted to, in stored order |
| RespondentDashboard.CompletedView | src/pages/RespondentDashboard.tsx:112-131 | the list is recomputed only when both lists are non-empty, and then holds exactly the surveys with an approved submission from the user, in stored order, each with every copy it has in the store |
| RespondentDashboard.ToggleTopic | src/pages/RespondentDashboard.tsx:181-187 | the topic is selected afterwards iff it was not before; no other topic changes |
| RespondentDashboard.ToggleTwiceRestores | src/pages/RespondentDashboard.tsx:181-187 | toggling twice restores the set of selected topics |
| RespondentDashboard.SaveTopics | src/pages/RespondentDashboard.tsx:189-194 | with a session, the topics are written through a patch that sets only them; without one nothing changes |
| SurveyCard.ElapsedSeconds | src/components/common/SurveyCard.tsx:97 | whole seconds elapsed, rounded down |
| SurveyCard.TimeAgo | src/components/common/SurveyCard.tsx:99-119 | each unit is reported for exactly its range of elapsed seconds (under a minute, an hour, a day, 30 days, and beyond), and the amount is the number of whole units elapsed |
| SurveyCard.TimeAgoLabel | src/components/common/SurveyCard.tsx:94-120 | the label: the amount, a space, the unit word and " ago" (its meaning is stated by `TimeAgoLabelByRange`) |
| SurveyCard.TimeAgoLabelByRange | src/components/common/SurveyCard.tsx:94-120 | for every elapsed time the label is the number of whole seconds, minutes, hours, days or 30-day months elapsed, by direct division, followed by the unit word, singular only for exactly one unit of a minute or more |
| SurveyCard.UnitWord | src/components/common/SurveyCard.tsx:99-119 | seconds are always plural; every other unit is singular iff the amount is 1 |
| SurveyCard.Digits | src/components/common/SurveyCard.tsx:100 | a natural number prints as a non-empty string of decimal digits with no leading zero |
| SurveyCard.Decimal | src/components/common/SurveyCard.tsx:100 | a number prints with a leading minus sign exactly when it is negative, then only digits, with no leading zero |
| SurveyCard.DecimalRoundTrip | src/components/common/SurveyCard.tsx:100 | reading a printed number back gives the number, negative ones included |
| SurveyCard.DigitsRoundTrip | src/components/common/SurveyCard.tsx:100 | reading the printed digits back gives the number |
| SurveyCard.OneSecondIsPlural | src/components/common/SurveyCard.tsx:99-101 | one second elapsed prints as "1 seconds ago" |
| SurveyCard.ShowsParticipate | src/components/common/SurveyCard.tsx:77 | Participate shows on a respondent card of an open survey whose button is not hidden |
| SurveyCard.ShowsViewResponses | src/components/common/SurveyCard.tsx:83 | View Responses shows on every researcher card, whatever the survey's status |
| SurveyCard.ButtonsExclusive | src/components/common/SurveyCard.tsx:77-87 | no card shows both buttons, and a closed survey never offers Participate |
| RegisterForm.SetField | src/components/auth/RegisterForm.tsx:25-30 | only the named field takes the new value |
| RegisterForm.CheckForm | src/components/auth/RegisterForm.tsx:40-70 | a password mismatch is reported first; then missing information iff the role or any field is empty; an accepted form passes exactly name, email, password, role and institution |
| RegisterForm.FormRoleReachesAccount | src/components/auth/RegisterForm.tsx:64-70 | an accepted form creates an account with the chosen role, and with 100 points exactly when that role is researcher |
| RegisterForm.Form.constructor | src/components/auth/RegisterForm.tsx:13-23 | the form starts empty, with no role, at step 1, not loading |
| RegisterForm.Form.HandleChange | src/components/auth/RegisterForm.tsx:25-30 | only the named field changes |
| RegisterForm.Form.HandleRoleSelect | src/components/auth/RegisterForm.tsx:32-38 | the role is recorded and the form moves to step 2 |
| RegisterForm.Form.Back | src/components/auth/RegisterForm.tsx:213-220 | the form returns to step 1 and keeps its fields |
| RegisterForm.Form.HandleSubmit | src/components/auth/RegisterForm.tsx:40-88 | a refused form changes no storage and returns the reason; otherwise `register` runs with the form's values, and `loading` is lowered afterwards |

## Left out

- Rendering, routing, navigation and toasts are not modelled. A redirect appears only as the failure value of a load.
- The progress bar's percentage is not modelled.
- The `loading` flags of the pages are not modelled; they only affect what is displayed.
- JSON encoding of storage values is not modelled, nor the `try`/`catch` around malformed JSON. Storage is taken to be well formed.
- Events in other browser tabs are not modelled.
- Dates are integers rather than ISO strings, so `new Date(...)` parsing is not modelled. An invalid date gives `NaN` in the source; here it cannot happen.
- `Date.now()` and the current time are parameters, not clocks.
- `setInterval` is not modelled. `CheckExpiredSurveys` is one tick at a given instant. `SweepIdempotent` covers only a repeat at the same instant; a later tick may close further surveys, and a sequence of ticks is not modelled.
- The researcher dashboard keeps its list in memory and also writes it to storage. The model treats the two as the same list. When the surveys key is missing, the model reads it as empty.
- Seeding the sample surveys on a first visit is not modelled.
- `window.open` for the external form is not modelled.
- `handleInputChange` on the new-survey form is not modelled: it is a plain field update, like `SetField`.
- `handleTopicSelect` on the new-survey form is not modelled: it is the same toggle as `RespondentDashboard.ToggleTopic`.
- `handleTargetChange` is not modelled: `parseInt` of the target can give `NaN`.
- The login page is not part of this model.
- `Text.Lower`: only ASCII letters are lower-cased. JavaScript's `toLowerCase` also maps non-ASCII letters.
- In the source the optional user fields (`institution`, `points`, `selectedTopics`) may be absent. The model stores them with their `||` defaults (`''`, `0`, `[]`), which is the value every use in the core falls back to.
- `SurveyDetail.DetailPage.Load`: the `|| 'pending'` fallback for a submission status is not modelled. Every stored submission has a status, so the fallback is unreachable.
- `SurveyDetail.DetailPage.ConfirmCompletion` requires a session. The page renders nothing without a signed-in user, so the handler cannot be reached without one.
