# Interview role-play: session state machine and text helpers

This project models the core of a job-interview role-play application and proves properties of it. The application collects an OpenAI API key and a seven-field candidate profile. It asks for a self-introduction, then goes through a catalog of interview questions. After each answer a language-model judge decides whether to ask a follow-up question. At the end it produces a feedback report, or a partial report when the candidate skipped ahead.

The model has three modules:

- `Wrappers` (`wrappers.dfy`) holds `Option` and `Result`.
- `InterviewLogic` (`interview_logic.dfy`) holds the pure helpers of `interview_logic.py`:
  - `AddNewlinesByPeriod` puts a line break after every `。`, `？` and `！`.
  - `GetHistoryText` renders the chat log as `面接官：…` / `あなた：…` lines joined by `"\n"`.
  - `GetRules` fills the rules template with the profile.
- `Session` (`session.dfy`) holds the session of `rollplay.py` as the class `InterviewSession`. Its fields are the session keys: `current_stage`, `chat_history`, `profile`, `current_question`, `depth_count`, `intro_given`, `api_key`, `llm`, `is_interrupted`, the `question_{i}` keys (the map `questionCache`) and `feedback_result`. There is one method per user event. The invariant `Valid()` states:
  - `depth_count ≤ 3` and `current_question ≤ len(questions_list)`;
  - in the question stage, `current_question < len(questions_list)`;
  - the chat log alternates interviewer and candidate turns, starts with the introduction request and has even length;
  - cached questions exist only for indices up to the current one;
  - the profile is complete once stored;
  - the interruption flag and the stored feedback occur only in the feedback stage.

What the language model returns is a method parameter: the question text, the judge's verdict (already stripped) and the feedback text. The same goes for whether the model client could be set up. Each method that would call the model returns the request it would send as an out-parameter: a `QuestionRequest` with rules, question, evaluation points and transcript, or a `FeedbackRequest` with the variant, the evaluation-point descriptions and the transcript. The question catalog, the evaluation-point descriptions and the rules template form one read-only `Config`, fixed when the session is created.

In these places the model follows the code as written:

- **Follow-up rule.** The judge is consulted on every non-empty answer, at every depth. A follow-up is asked iff the verdict is exactly `"Yes"` and `depth_count < 3` (rollplay.py:250-253). There is no forced first follow-up.
- **Restart.** Both restart paths delete every session key, the profile and API key included (rollplay.py:52-55, rollplay.py:316-320). No restart keeps the profile.
- **Cache on advance.** Moving to the next question leaves the old `question_{i}` entries in place. They are never read again. Nothing is cleared.
- **API key check.** The key is checked only for being non-empty and starting with `sk-`, and for the client constructor not failing (rollplay.py:114-117). No probe request is sent.

## Model

| member | source | states |
|---|---|---|
| `InterviewLogic.AddNewlinesByPeriod` | interview_logic.py:41-43 | the result is one character longer than the text per terminator `。？！` |
| `InterviewLogic.AddNewlinesCounts` | interview_logic.py:43 | every character occurs in the result as often as in the text, except `"\n"`, which occurs once more per terminator |
| `InterviewLogic.TerminatorCountByMark` | tests/test_integration.py:192-195 | the terminator count is the sum of the counts of `。`, `？` and `！`; with the previous row, the newlines added equal those counts |
| `InterviewLogic.RemoveInsertedNewlinesInverse` | interview_logic.py:43 | deleting each `"\n"` that directly follows a terminator gives back the original text, for every text |
| `InterviewLogic.AddNewlinesAppend` | interview_logic.py:43 | the insertion distributes over concatenation, so it works character by character |
| `InterviewLogic.AddNewlinesAt` | interview_logic.py:43 | character i lands at position i + (terminators before it); exactly one `"\n"` follows it if it is a terminator, and nothing is inserted after any other character |
| `InterviewLogic.AddNewlinesUnchanged` | interview_logic.py:43 | the text comes back unchanged iff it has no terminator (the empty text included) |
| `InterviewLogic.AddNewlinesNotIdempotent` | interview_logic.py:43 | applying the insertion twice to text with a terminator differs from applying it once |
| `InterviewLogic.SplitJoinLines` | interview_logic.py:57 | splitting the `"\n"`-join of lines that hold no `"\n"` gives back exactly those lines: one separator between lines, none at the end |
| `InterviewLogic.JoinLinesSnoc` | interview_logic.py:57 | joining one more line appends one `"\n"` and that line |
| `InterviewLogic.HistoryLines` | interview_logic.py:50-55 | succeeds iff every entry has a role and content; line i is `面接官：`+content for role `assistant` and `あなた：`+content otherwise |
| `InterviewLogic.GetHistoryText` | interview_logic.py:45-57 | the empty log renders as `""`; a one-entry log renders as that entry's label followed by its content, whatever the content holds; rendering fails iff some entry lacks its role or content |
| `InterviewLogic.HistoryTextError` | interview_logic.py:52 | a failure names the key missing from the first malformed entry (`role` before `content`); no default speaker is used |
| `InterviewLogic.HistoryTextLines` | interview_logic.py:50-57 | for contents without line breaks the transcript has exactly one line per entry, in order, each the speaker label followed by the content |
| `InterviewLogic.HistoryTextSnoc` | interview_logic.py:50-57 | appending an entry to a non-empty log appends `"\n"` and that entry's line to the transcript |
| `InterviewLogic.ProfileField` | interview_logic.py:18-26 | exactly the seven profile keys name a field |
| `InterviewLogic.GetRules` | interview_logic.py:14-26 | filling succeeds iff every placeholder names one of the seven profile keys |
| `InterviewLogic.GetRulesAppend` | interview_logic.py:18-26 | filling distributes over template concatenation; the first error in order wins |
| `InterviewLogic.GetRulesLiteralOnly` | interview_logic.py:18-26 | a template without placeholders fills to exactly its literal text, for every profile |
| `InterviewLogic.GetRulesPlaceholder` | interview_logic.py:18-26 | a placeholder is replaced by its profile field and the text around it is kept; an unknown name raises KeyError with that name |
| `InterviewLogic.GetRulesSampleTemplate` | interview_logic.py:18-26 | for every profile, each of the seven placeholders of the unit tests' template receives its own field (`age`→age, …, `target_job`→target job), the literal text between them kept |
| `InterviewLogic.GetRulesSample` | tests/test_interview_logic.py:77-94 | the unit tests' template filled with their sample profile gives the expected three lines |
| `Session.PointLines` | rollplay.py:217-219 | succeeds iff every key has a description; line i is `- key：description` for key i |
| `Session.EvaluationPointsText` | rollplay.py:217-219 | succeeds iff every key has a description; no keys give `""`; one described key gives exactly its line `- key：description`, whatever it holds |
| `Session.EvaluationPointsSnoc` | rollplay.py:217-219 | one more described key appends one `"\n"` and its line `- key：description`, line breaks inside keys or descriptions included |
| `Session.EvaluationPointsError` | rollplay.py:217-219 | a failure is the KeyError of the first key without a description |
| `Session.EvaluationPointsLines` | rollplay.py:217-219 | without embedded line breaks, the text has exactly one `- key：description` line per key, in order |
| `Session.AlternatesAppendPair` | rollplay.py:243-246 | appending a question and its answer keeps the log alternating, starting with the interviewer, of even length |
| `Session.AlternatingTranscript` | rollplay.py:181-186 | an alternating log always renders, its lines alternating between `面接官：` and `あなた：` |
| `Session.AnswerExtendsTranscript` | rollplay.py:243-250 | each answered question extends the judged transcript by exactly the lines `面接官：question` and `あなた：answer` |
| `Session.InterviewSession.constructor` | rollplay.py:27-43 | a fresh session is at stage api key with an empty log and profile, question 0, depth 0, no introduction, no cached question or feedback, not interrupted |
| `Session.InterviewSession.AddMessage` | rollplay.py:45-50 | appends exactly one entry with the given role and content |
| `Session.InterviewSession.Reset` | rollplay.py:52-55 | wipes the whole state back to the fresh state, profile and key included; the feedback stage's restart at rollplay.py:316-320 does the same |
| `Session.InterviewSession.SkipToFeedback` | rollplay.py:57-60 | sets the feedback stage and the interruption flag and changes nothing else |
| `Session.InterviewSession.SubmitApiKey` | rollplay.py:113-125 | moves to the profile stage iff the key is non-empty, starts with `sk-` and setup succeeds; otherwise nothing changes |
| `Session.InterviewSession.SubmitProfile` | rollplay.py:141-155 | stores the profile and moves to the introduction iff all seven fields are non-empty; otherwise nothing changes |
| `Session.InterviewSession.SubmitIntro` | rollplay.py:181-187 | a non-empty introduction makes the log exactly [introduction request, introduction] and moves to the questions; an empty one changes nothing |
| `Session.InterviewSession.RenderQuestion` | rollplay.py:212-236 | the question text is generated only when `question_{i}` is absent, from the catalog content, evaluation points and transcript; re-rendering never regenerates; the text shown has line breaks after each sentence |
| `Session.InterviewSession.SubmitAnswer` | rollplay.py:243-276 | a non-empty answer appends [shown question, answer] and is judged on the whole transcript; a follow-up (verdict `"Yes"` and depth < 3) raises the depth and overwrites `question_{i}`; otherwise the index advances, the depth resets, and the stage becomes feedback exactly when the catalog is exhausted |
| `Session.InterviewSession.RenderFeedback` | rollplay.py:290-313 | feedback is generated only when none is stored, with the partial variant iff interrupted, from every evaluation-point description and the transcript; the stored report is the generated text with line breaks after each sentence |

`Session.FollowupCapScenario` is a client of the class. It has no contract of its own. It shows that from a freshly shown question three `"Yes"` verdicts raise the depth to 3, and that a fourth `"Yes"` still moves on to the next question.

## Left out

- `setup_llm`, `generate_question`, `judge_need_followup`, `generate_feedback` and `generate_partial_feedback` (interview_logic.py:28-109) are calls to the language-model service and an environment-variable write. Their results are method parameters. The judge verdict is passed in already stripped.
- Failures of those calls are not modelled; every call is taken to return. In the source, a call that raises after a partial update leaves that update in place. Examples: the log entries appended before a failing judge call, or the depth raised before a failing follow-up generation.
- `validate_api_key` is imported at rollplay.py:9 but not defined in interview_logic.py. It is not part of this model.
- secrets_config.py (loading the configuration bundle) is not part of this model. The bundle is the `config` passed to the session's constructor.
- `Session.InterviewSession.constructor` requires a well-formed bundle: a non-empty catalog, every evaluation-point key described, every template placeholder a profile field. With a malformed bundle the source fails while rendering the question stage. An empty catalog raises ZeroDivisionError in the progress computation (rollplay.py:209). An undescribed evaluation-point key or an unknown template placeholder raises KeyError. The KeyError paths are modelled only in `GetRules` and `EvaluationPointsText`; the division by zero is not modelled.
- Python's format-string syntax is not modelled: brace escapes, format specs, positional and attribute fields. A template is given already cut into literal and placeholder segments.
- The Streamlit page is not modelled: headers, forms, buttons, spinners, `st.rerun`, and the progress bar with its float division (rollplay.py:209). The dispatch in `main()` becomes each handler's precondition on the stage. A restart together with the `init_session_state` call of the next run is modelled as one step.
- The fallback at rollplay.py:278-280 (an index past the catalog in the question stage) cannot be reached with a fixed catalog, because `Valid()` keeps the index below the catalog length in that stage. It is not written as a branch.
- `add_newlines_by_period(None)` raising TypeError is ruled out by the types.
- The `is_interrupted` key is absent until a skip; it is read with default `False`, which the model treats as `false`.
