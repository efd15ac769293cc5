# learnai core, modelled in Dafny

learnai is a study web application. A user submits notes, a text file or a
YouTube link. The server cleans the text, has a language model write notes
and multiple-choice quizzes from it, and keeps a *dashboard* per study
session. The dashboard holds an endless quiz: a buffer of generated questions
served ten at a time, topped up in the background whenever fewer than three
pages remain ahead of the reader. The server also keeps running counters of
answered questions, correct answers and the best streak, and aggregates them
on the user's profile page. Beside that it answers chat questions about the
notes and resets forgotten passwords with single-use tokens.

This project models that core and proves what it promises:

- `store.dfy` (module `Store`): the dashboard table as a `DashboardStore`
  object over a map from session id to record. It covers paging of the
  question buffer with Python slice semantics, appending to the buffer, the
  generation flag, counters, deletion and the notes preview.
- `quiz_service.dfy` (module `QuizService`): the background replenishment
  with its three attempts and flag, and the page-request decision. It also
  folds submitted results into the counters.
- `quiz_format.dfy` (module `QuizFormat`): extraction of the ```` ```json ````
  fenced payload from a model reply, written as the scan `re.search`
  performs, and the all-or-nothing validation of the parsed batch.
- `note_text.dfy` (module `NoteText`): the three substitutions and the strip
  of `_preprocess_text`, each written as a scanner.
- `youtube.dfy` (module `YouTube`): the four video-id patterns, transcript
  assembly, and the retry policy around the transcript service.
- `chat_bot.dfy` (module `ChatBot`): the chat bot's append-only history.
- `profile.dfy` (module `Profile`): the profile statistics.
- `password_reset.dfy` (module `PasswordReset`): the in-memory reset-token
  map.
- `text.dfy`, `json.dfy`, `wrappers.dfy`: Python whitespace and `strip`, a
  parsed-JSON datatype with Python's `in` on it, and `Option`/`Result`.

External services are parameters of the model:

- The language model is a function from the notes and the attempt number to
  a reply or a failure.
- `json.loads` is a function from text to a parsed value or a failure.
- The transcript service is a function from call number, video id and
  language to entries or an error message.
- The chat service is a function from the messages to a reply or a failure.
- The reset token and the bcrypt hash are arguments.

Calls run one at a time.

## Model

| member | source | states |
|---|---|---|
| Store.SliceBound | database.py:139 | a Python slice bound is clamped to `[0, len]`, counts from the end when negative, and is kept when already in range |
| Store.PageServed | database.py:133-143 | for `n >= 0`, page `n` is served exactly when the buffer holds all of `[10n, 10n+10)`, and it is exactly that slice |
| Store.PageFromEnd | database.py:133-143 | a negative page number counts from the end as Python slicing does: page -1 is never served, page `n <= -2` is the ten questions starting `-10n` from the end |
| Store.PageNeedsMore | database.py:137-150 | a served page has exactly 10 questions and the low-water flag is `len - 10n < 30`; an unserved page always sets the flag |
| Store.PageStableUnderAppend | database.py:133-143 | appending to the buffer never changes a page already served |
| Store.NotesPreview | database.py:216 | notes over 100 characters become their first 100 followed by "..." (length 103); shorter notes are kept whole |
| Store.Listing | database.py:213-229 | the listing has one summary per record, in order; it is what `GetUserDashboards` returns and what both profile handlers read |
| Store.DashboardStore.Get | database.py:67-75 | `get_dashboard` finds a record exactly when one is stored under the id |
| Store.DashboardStore.CreateDashboard | database.py:47-64 | a new record holds the initial questions as its buffer, current set 0, zero counters and a clear flag; a duplicate id fails and stores nothing |
| Store.DashboardStore.UpdateDashboardStats | database.py:78-86 | exactly the three counters are overwritten; notes, buffer and flag are unchanged; a missing id is a no-op |
| Store.DashboardStore.GetQuizQuestions | database.py:120-150 | a missing record gives `(None, False)` and no change; otherwise the answer is the page of the buffer, and the only change is a NULL buffer stored as the empty list |
| Store.DashboardStore.AddQuestionsToBuffer | database.py:153-169 | the buffer becomes old buffer (NULL read as empty) followed by the new questions; a missing id is a no-op |
| Store.DashboardStore.SetGeneratingStatus | database.py:172-185 | only the flag of that record changes; afterwards `is_generating_questions` reads the value set, and a missing session reads as false |
| Store.DashboardStore.DeleteDashboard | database.py:188-200 | returns true exactly when the record existed; afterwards it is gone and every other record is unchanged |
| Store.DashboardStore.GetUserDashboards | database.py:203-234 | the loop builds exactly `Listing` of the rows the user's query returns: one summary per row, in the query's order, each with the notes preview |
| Store.ReadPageTwice | database.py:128-150 | reading the same page twice in a row gives the same answer |
| QuizService.BatchShape | main.py:89-98 | an attempt adds nothing exactly when the generator fails or its reply is rejected, and otherwise a whole batch of ten well-formed questions |
| QuizService.Batches | main.py:88-90 | attempt `k` contributes the batch of the generator's `k`-th reply, in attempt order |
| QuizService.NewQuestionsStep | main.py:88-98 | each further attempt appends its own batch after those of the earlier attempts |
| QuizService.NewQuestionsShape | main.py:87-98 | a replenishment adds ten questions per successful attempt, at most three batches, and only well-formed questions |
| QuizService.Extremes | main.py:87-98 | nothing is added exactly when every attempt fails; three batches exactly when every attempt succeeds |
| QuizService.Extend | main.py:92-93 | the buffer read as a list is the old one followed by the added questions; the column is left as it was exactly when nothing is added, so a NULL buffer stays NULL only then |
| QuizService.ExtendTwice | main.py:92-93 | appending two runs of questions one after the other equals appending their concatenation |
| QuizService.AddBatch | main.py:89-98 | one attempt: the accepted batch is appended to the buffer at once and a failure adds nothing; nothing else changes |
| QuizService.RunAttempts | main.py:87-98 | exactly three generator calls; the buffer ends as the old buffer followed by the successful batches in call order; a failure does not stop later attempts |
| QuizService.GenerateMoreQuestions | main.py:77-104 | with the flag already set: no call and no change; otherwise three calls, the buffer extended by the successful batches in order, and the flag false at the end whatever failed |
| QuizService.Decide | main.py:216-234 | `background_tasks.add_task` is called exactly when more questions are needed and none is being generated; no page means 202 Not Ready; a served page always has `has_next` true |
| QuizService.GetQuizData | main.py:210-234 | an unknown quiz is 404 with nothing scheduled; otherwise the answer is the decision on the page read and on the flag |
| QuizService.NotReadySchedulesUnlessRunning | main.py:216-227 | on an unserved page, `add_task` is called exactly when no replenishment is running, before the 202 is raised |
| QuizService.FullBufferSchedulesNothing | main.py:216-233 | with three full pages buffered from the requested page on, the page is served and nothing is scheduled |
| QuizService.ReadSubmission | main.py:545-547 | the submission is read exactly when `total_questions` and `correct_answers` are present; `streak` defaults to 0 |
| QuizService.ApplyAllFolds | main.py:550-562 | after any sequence of submissions the totals are the old totals plus the sums, the best streak is the largest of the old one and every submitted streak, and nothing else changes |
| QuizService.MaxStreakBounds | main.py:555 | the best streak never decreases and bounds every submitted streak |
| QuizService.SubmitQuizResults | main.py:539-566 | a body missing a required key is an error with no change; otherwise an existing session's three counters are updated as sum, sum, max, and the answer is success |
| QuizFormat.SkipSpace | ai_service.py:150 | the greedy `\s*`: it skips exactly the whitespace run |
| QuizFormat.FindClose | ai_service.py:150 | the lazy group ends at the first position from which whitespace and a closing fence follow |
| QuizFormat.SearchFence | ai_service.py:150 | `re.search` finds the leftmost position where the fence pattern matches, or reports that there is none |
| QuizFormat.ExtractPayload | ai_service.py:150-152 | without a fence the whole reply is parsed; with one, the payload is the group of the leftmost match, up to the first closing fence after it, with no whitespace at either end and no closing fence inside |
| QuizFormat.FencedPayloadDetermined | ai_service.py:150-152 | the description of a fenced payload (leftmost match, whitespace skipped greedily, group ending at the first closing fence) fits exactly one text, the one extracted |
| QuizFormat.GroupFacts | ai_service.py:150 | the captured group has no whitespace at its ends and holds no closing fence |
| QuizFormat.FirstFailure | ai_service.py:173-179 | the validation loop stops at the first question that fails its checks |
| QuizFormat.Validate | ai_service.py:161-181 | an accepted value is returned unchanged |
| QuizFormat.CheckQuestionAccepts | ai_service.py:173-179 | a question passes its checks exactly when it has the three keys, options containing A, B, C and D, and an answer among A-D |
| QuizFormat.ValidateAcceptsExactly | ai_service.py:161-181 | a batch is accepted exactly when it is an object whose `questions` list holds exactly ten well-formed questions |
| QuizFormat.ValidateBlamesFirst | ai_service.py:173-179 | an error naming question `k` (1-based) names the first bad question: all earlier ones are well formed |
| QuizFormat.GenerateQuiz | ai_service.py:147-185 | an accepted reply parses to a well-formed batch of ten, and an unparsable payload is a JSON error |
| QuizFormat.RejectsWrongCount | ai_service.py:169-170 | a `questions` list of any length other than ten is rejected with its length |
| QuizFormat.RejectsAnswerE | ai_service.py:178-179 | one question answering 'E' rejects the whole batch |
| QuizFormat.StringOptionsPass | ai_service.py:176 | the options check only probes with `in`, so the string "ABCD" passes it |
| NoteText.LastNewline | ai_service.py:24 | the backward search finds the last newline of a range, or reports that it has none |
| NoteText.BlankLineMatch | ai_service.py:24 | a match of `\n\s*\n` at a newline exists exactly when the whitespace run after it holds another newline; it consists of whitespace and ends just past the last newline of that run |
| NoteText.SpaceLoneNewlines | ai_service.py:26 | the second substitution keeps the length |
| NoteText.PreprocessIsCollapseStrip | ai_service.py:24-30 | the net effect of `_preprocess_text` is that of line 28 followed by the strip |
| NoteText.PreprocessShape | ai_service.py:21-30 | the output has no whitespace at either end, every whitespace run is one plain space, and the input's non-whitespace characters are kept in order |
| NoteText.PreprocessIdempotent | ai_service.py:21-30 | preprocessing its own output changes nothing |
| Text.StripLeft | ai_service.py:30 | `lstrip` removes exactly the leading whitespace |
| Text.StripRight | ai_service.py:30 | `rstrip` removes exactly the trailing whitespace |
| Text.StripEnds | ai_service.py:30 | `strip` leaves no whitespace at either end |
| Text.StripNonSpace | ai_service.py:30 | `strip` removes whitespace only |
| Text.StripTrimmed | ai_service.py:30 | a string with no whitespace at its ends is its own strip |
| ChatBot.SystemMessage | ai_service.py:191-197 | the system prompt is the fixed preamble, the notes verbatim, and the fixed postamble |
| ChatBot.SystemMessageInjective | ai_service.py:191-197 | different notes give different system prompts |
| ChatBot.Bot.constructor | ai_service.py:188-198 | a new bot has its system prompt and an empty history |
| ChatBot.Bot.AddUserMessage | ai_service.py:200-201 | exactly one user entry is appended |
| ChatBot.Bot.AddAssistantMessage | ai_service.py:203-204 | exactly one assistant entry is appended |
| ChatBot.Bot.Prompt | ai_service.py:208-210 | the messages sent are the system message followed by the whole history |
| ChatBot.Bot.Chat | ai_service.py:206-228 | the question is recorded first; the service sees the system prompt, the old history and the question; its reply is recorded after; on failure only the question is recorded; earlier entries are never changed; complete exchanges stay alternating |
| ChatBot.AlternatingExchange | ai_service.py:206-228 | a question and its answer appended to alternating turns keep them alternating |
| ChatBot.AskTwice | ai_service.py:206-228 | two successful questions leave both exchanges in order after the earlier history |
| YouTube.MatchAt | youtube.py:21-24 | a pattern match places an 11-character id after the match start |
| YouTube.Search | youtube.py:28 | `re.search` returns the leftmost matching position |
| YouTube.GetVideoId | youtube.py:8-31 | a returned id has exactly 11 characters from `[0-9A-Za-z_-]` and occurs in the URL |
| YouTube.FirstIdOrder | youtube.py:27-30 | the first pattern in list order that matches anywhere decides the id, at its leftmost match |
| YouTube.FirstIdNone | youtube.py:27-31 | no id is found exactly when no pattern matches anywhere |
| YouTube.GetVideoIdOrder | youtube.py:20-30 | for the four patterns: the first that matches determines the result |
| YouTube.GetVideoIdFails | youtube.py:27-31 | `ValueError` exactly when none of the four patterns matches |
| YouTube.VParamUrl | youtube.py:21 | a host without `v` and with blocked slashes, then `v=`, an id and an allowed tail, yields that id |
| YouTube.SlashUrl | youtube.py:21 | a host as above, then `/`, an id and an allowed tail, yields that id |
| YouTube.WatchUrlForms | youtube.py:13-16 | `https://www.youtube.com/watch?v=ID` and `https://m.youtube.com/watch?v=ID` yield ID |
| YouTube.WatchUrlParameters | youtube.py:17-18 | a timestamp `&t=123` or a playlist `&list=...` after the id does not change it |
| YouTube.ShortUrlForm | youtube.py:14 | `https://youtu.be/ID` yields ID |
| YouTube.EmbedUrlForm | youtube.py:15 | `https://www.youtube.com/embed/ID` yields ID |
| YouTube.AssembleTranscript | youtube.py:54-58 | the `+=` loop and the strip compute the transcript: each entry's text followed by a space, concatenated and stripped |
| YouTube.TranscriptIsJoin | youtube.py:54-58 | when the entries' texts are non-empty with no whitespace at their ends, the transcript is the texts joined by single spaces |
| YouTube.TranscriptShape | youtube.py:54-58 | the transcript has no whitespace at its ends and keeps every non-whitespace character of the entries in order |
| YouTube.TryLanguages | youtube.py:49-68 | one attempt makes between one and `|languages| + 1` calls, and all of them when it ends in an error |
| YouTube.FetchTranscriptSync | youtube.py:33-81 | the loops of `_fetch_transcript_sync` compute the retry policy: the URL error, a transcript, no transcript, or the error after the last attempt, with the number of service calls |
| YouTube.FetchTranscript | youtube.py:83-99 | no transcript becomes an error; a transcript is passed on unchanged, and so is an error |
| YouTube.RetryCallBound | youtube.py:47-79 | the remaining attempts make at most `|languages| + 1` calls each |
| YouTube.FetchCallBound | youtube.py:45-81 | a fetch makes at most `max_retries * (|languages| + 1)` calls |
| YouTube.NoTranscriptNoRetry | youtube.py:70-73 | an error mentioning "No transcript found" gives no transcript after the first attempt, without retrying |
| YouTube.PersistentFailureRaises | youtube.py:74-79 | when every call fails with the same other error, every attempt is made, one call per language plus one each, and the last one raises with that message |
| YouTube.ErringAttemptsRaise | youtube.py:47-79 | when every remaining attempt fails with an error not about a missing transcript, whatever the calls return, all of them are made and the last attempt's own error is raised |
| YouTube.RetryTextTrimmed | youtube.py:47-68 | a fetched transcript has no whitespace at either end |
| Profile.MaxOrZeroIsMax | main.py:599 | `max(..., default=0)` is 0 for no dashboards, bounds every element, and is one of them |
| Profile.CountPositiveBounds | main.py:591 | the count of positive entries is at most the length, and zero exactly when none is positive |
| Profile.ProfileOfMeaning | main.py:590-599 | every dashboard is counted; quizzes are counted only for answered dashboards, so never more than dashboards, and none exactly when nothing was answered; the best streak is the maximum, or 0 without dashboards |
| Profile.ProfileScoreBounded | main.py:594-596 | when no dashboard has more correct answers than answered questions, neither has the profile, so the average score is at most 100 |
| Profile.ProfileGetAsWritten | main.py:587-599 | as written, `GET /profile` renders only for a user without dashboards |
| Profile.ProfileGetFailsWithDashboards | main.py:587-591 | a user with one dashboard gets an error where the intended statistics exist |
| Profile.ProfileGetEmptyAgrees | main.py:587-599 | for a user without dashboards the handler shows the intended statistics |
| Profile.ProfilePostDropsCorrect | main.py:639-651 | `POST /profile` gets every statistic right except the correct answers, which it reports as 0 |
| Profile.ProfilePostCounterexample | main.py:646-648 | 7 correct of 10 answered shows 0 correct on the POST page, against 7 intended |
| PasswordReset.IndexOfUsername | database.py:30-36 | `get_user_by_username` finds a user with that name, or none exists |
| PasswordReset.IndexOfEmail | database.py:39-45 | `get_user_by_email` finds a user with that address, or none exists |
| PasswordReset.Redeemable | main.py:780-785 | a token redeems exactly when it is known, maps to a non-empty username, and that user exists |
| PasswordReset.ResetService.constructor | main.py:64 | the application starts with no reset tokens |
| PasswordReset.ResetService.ForgotPasswordSubmit | main.py:738-769 | a known address records the fresh token for its user; an unknown one changes nothing; users are untouched |
| PasswordReset.ResetService.ResetPasswordPage | main.py:771-776 | the form is shown exactly for a token mapping to a non-empty username |
| PasswordReset.ResetService.ResetPasswordSubmit | main.py:778-792 | a token that does not redeem changes no password and no token; one that does sets that user's hash, deletes the token, and redirects to `/login` with 303 |
| PasswordReset.SubmitTwice | main.py:778-792 | a token is single-use: after a successful reset, submitting it again is rejected |
| PasswordReset.IssueThenRedeem | main.py:738-792 | a token issued for a known address shows the form and then redeems to that user |
| PasswordReset.UniqueLookup | main.py:743 | with unique usernames, the username of the user found by address leads back to that user |

## Left out

- HTTP routing, status-code mapping beyond the decisions above, Jinja templates, static files and the server (main.py throughout). They are plumbing with no logic of their own.
- auth.py (JWT encoding and expiry, password hashing) and the bcrypt wrappers of models.py are foreign-library calls. The hash is a function argument in `ResetPasswordSubmit`.
- Floating-point values: the attempt `score` (database.py:92), `average_score` (database.py:114), the listing's `accuracy` (database.py:220) and `avg_score` (main.py:596, 648). Only the integer totals they are computed from are modelled.
- `add_quiz_attempt` (database.py:89-102) and the `QuizAttempt` rows: they hold the float score and nothing reads them in the core. `SubmitQuizResults` models the counters only, so a failure of that insert is not modelled: a well-formed body always answers success.
- `get_dashboard_stats` (database.py:105-117) is the float average plus two copied counters.
- Concurrency. The flag is read in `get_quiz_data` and set later in `generate_more_questions`, so two replenishments can interleave; the model runs each call to completion and claims no mutual exclusion. `await` interleavings, `asyncio.to_thread` and `time.sleep` are left out.
- The language-model HTTP calls, `json.loads`, the transcript service and the chat service are function parameters. `secrets.token_urlsafe` is an argument.
- The reset e-mail (main.py:750-767) is not modelled: `ForgotPasswordSubmit` records the token and sends nothing. A failure of `fm.send_message` (main.py:766-767) is not modelled either; in the program it comes after the token is stored and answers with an error instead of the confirmation page.
- QuizService.Decide: on an unserved page it models the call to `background_tasks.add_task` (main.py:219-220), not whether the task runs. The handler then raises `HTTPException(202)` (main.py:223-227) instead of returning a response, and whether the web framework still runs a task added before that raise is framework behaviour outside these files.
- `_clean_latex` (ai_service.py:116-119) returns its input, so it is not modelled.
- The `print` logging throughout (for example ai_service.py:22, 33 and 122, youtube.py:60, 72 and 75, database.py:63, 74, 199 and 233) is output only and changes no state, so it is not modelled.
- The general regular-expression engine: only the specific patterns are modelled, as scanners.
- A transcript entry without a `text` key (a `KeyError` inside the loop) is not modelled: entries are their texts.
- Non-integer values in a submitted result body: the body is a map to integers.
- `delete_user` (main.py:674) and the user registration and login handlers are outside the core.
- The quiz prompt asks the model for options A through D (ai_service.py:81-82), but the validation only tests that each label is `in` the options (ai_service.py:176). Extra keys, a list or a string holding the labels therefore pass. The model follows the code (`QuizFormat.CheckQuestionAccepts`, `QuizFormat.StringOptionsPass`) and does not promise an exact option set.
- `set_number` is any integer, as in the code: a negative page number slices from the end (`Store.PageFromEnd`).
- YouTube.TryLanguages: bounds the calls of one attempt; what it returns is stated by `YouTube.FetchTranscriptSync`, `YouTube.NoTranscriptNoRetry`, `YouTube.ErringAttemptsRaise` and `YouTube.PersistentFailureRaises`.
- QuizFormat.Validate: its own contract only says an accepted value is unchanged; which values it accepts and which question it blames are stated by `QuizFormat.ValidateAcceptsExactly` and `QuizFormat.ValidateBlamesFirst`.

## Findings

| source | as written | input that shows it | evidently intended | confidence | as-written member | corrected member |
|---|---|---|---|---|---|---|
| main.py:587-599 | `GET /profile` reads `d.total_questions` on the entries of `get_user_dashboards`, which are dictionaries, so it raises `AttributeError` | any user with at least one dashboard | the statistics over the user's dashboards | not executed | Profile.ProfileGetFailsWithDashboards | Profile.ProfileOfMeaning |
| main.py:639-651 | `POST /profile` sums `d.get('total_correct', 0)` over listing entries, which have no `total_correct` key, so the total is always 0 and so is the average score | one dashboard with 7 of 10 answers correct shows 0 correct | the sum of the dashboards' correct answers | not executed | Profile.ProfilePostCounterexample | Profile.ProfileScoreBounded |
