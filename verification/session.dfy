/**
 * The interview session of the role-play application: the stages
 * api key -> profile -> intro -> questions -> feedback, the chat log, the
 * question index, the follow-up depth, the interruption flag and the two
 * caches of generated text, all updated in place by one handler per user
 * event. What the language model returns (question text, the stripped
 * judge verdict, feedback text) is passed in to the handlers.
 */
module Session {
  import opened Wrappers
  import opened InterviewLogic

  /** At most this many follow-up questions are asked about one catalog question. */
  const MaxDepth: nat := 3

  /** The interviewer's fixed opening request for a self-introduction. */
  const IntroMessage: string :=
    "それでは、最初にあなたの自己紹介を1分（400字程度）でお願いします。\nこれまでのご経歴やスキルについても触れていただければと思います。"

  /** The instruction that replaces the catalog question when a follow-up is generated. */
  const FollowupInstruction: string := "上記に対する深掘り質問を1つ出力してください。"

  /** The judge verdict that asks for a follow-up. */
  const FollowupVerdict: string := "Yes"

  /** Every accepted API key starts with this prefix. */
  const ApiKeyPrefix: string := "sk-"

  datatype Stage = ApiKeyEntry | ProfileEntry | Intro | Questions | Feedback

  /** One catalog entry: its title, the instruction fed to the model, and the evaluation-point keys it is scored on. */
  datatype QuestionSpec = QuestionSpec(title: string, content: string, pointKeys: seq<string>)

  /** The read-only configuration bundle: the rules template, the question catalog and the evaluation-point descriptions. */
  datatype Config = Config(
    rulesTemplate: seq<Segment>,
    questions: seq<QuestionSpec>,
    evaluationPoints: map<string, string>)

  /** The inputs of one question-generation request to the language model. */
  datatype QuestionRequest = QuestionRequest(rules: string, question: string, evaluationPoints: string, history: string)

  datatype FeedbackVariant = Full | Partial

  /** The inputs of the one feedback-generation request of a session: the variant, every evaluation-point description and the transcript. */
  datatype FeedbackRequest = FeedbackRequest(variant: FeedbackVariant, evaluationPoints: map<string, string>, history: string)

  /**
   * A bundle the session can run on: a non-empty catalog (the progress bar
   * divides by its length), every evaluation-point key described, and
   * every placeholder of the rules template a profile field.
   */
  predicate ConfigValid(c: Config) {
    |c.questions| > 0 &&
    (forall i, j :: 0 <= i < |c.questions| && 0 <= j < |c.questions[i].pointKeys| ==>
       c.questions[i].pointKeys[j] in c.evaluationPoints) &&
    (forall i :: 0 <= i < |c.rulesTemplate| ==> Resolves(c.rulesTemplate[i]))
  }

  // ---------------------------------------------------------------------
  // The evaluation-points text of one catalog question
  // ---------------------------------------------------------------------

  /** One line "- key：description" per key, in order; fails on the first key without a description. */
  function PointLines(keys: seq<string>, points: map<string, string>): (r: Result<seq<string>, KeyError>)
    ensures r.Ok? <==> forall i :: 0 <= i < |keys| ==> keys[i] in points
    ensures r.Ok? ==> |r.value| == |keys|
    ensures r.Ok? ==> forall i :: 0 <= i < |keys| ==> r.value[i] == "- " + keys[i] + "：" + points[keys[i]]
  {
    if keys == [] then Ok([])
    else if keys[0] !in points then Err(KeyError(keys[0]))
    else
      match PointLines(keys[1..], points)
      case Err(e) => Err(e)
      case Ok(rest) => Ok(["- " + keys[0] + "：" + points[keys[0]]] + rest)
  }

  /** The evaluation points of a question as one text, its lines joined by "\n". */
  function EvaluationPointsText(keys: seq<string>, points: map<string, string>): (r: Result<string, KeyError>)
    ensures r.Ok? <==> forall i :: 0 <= i < |keys| ==> keys[i] in points
    ensures keys == [] ==> r == Ok("")
    ensures |keys| == 1 && keys[0] in points ==> r == Ok("- " + keys[0] + "：" + points[keys[0]])
  {
    match PointLines(keys, points)
    case Err(e) => Err(e)
    case Ok(lines) => Ok(JoinLines(lines))
  }

  /** A key without a description raises KeyError naming the first such key. */
  lemma {:induction false} EvaluationPointsError(keys: seq<string>, points: map<string, string>) returns (i: nat)
    requires EvaluationPointsText(keys, points).Err?
    ensures i < |keys| && keys[i] !in points
    ensures forall j :: 0 <= j < i ==> keys[j] in points
    ensures EvaluationPointsText(keys, points).error == KeyError(keys[i])
  {
    if keys[0] in points {
      var k := EvaluationPointsError(keys[1..], points);
      i := k + 1;
      forall j | 0 <= j < i ensures keys[j] in points {
        if j > 0 { assert keys[j] == keys[1..][j - 1]; }
      }
    } else {
      i := 0;
    }
  }

  /** One more described key appends one "\n" and that key's line, whatever the keys and descriptions hold. */
  lemma EvaluationPointsSnoc(keys: seq<string>, k: string, points: map<string, string>)
    requires keys != [] && k in points
    requires forall i :: 0 <= i < |keys| ==> keys[i] in points
    ensures EvaluationPointsText(keys + [k], points) ==
            Ok(EvaluationPointsText(keys, points).value + "\n" + "- " + k + "：" + points[k])
  {
    var keys' := keys + [k];
    assert forall i :: 0 <= i < |keys'| ==> keys'[i] in points;
    var lines, lines' := PointLines(keys, points).value, PointLines(keys', points).value;
    var line := "- " + k + "：" + points[k];
    assert lines' == lines + [line];
    JoinLinesSnoc(lines, line);
    assert JoinLines(lines) + "\n" + line == JoinLines(lines) + "\n" + "- " + k + "：" + points[k];
  }

  /**
   * When no key or description holds a line break, the text has one line
   * per key, in order, each "- key：description".
   */
  lemma EvaluationPointsLines(keys: seq<string>, points: map<string, string>)
    requires keys != []
    requires forall i :: 0 <= i < |keys| ==> keys[i] in points && '\n' !in keys[i] && '\n' !in points[keys[i]]
    ensures var lines := SplitLines(EvaluationPointsText(keys, points).value);
            |lines| == |keys| &&
            forall i :: 0 <= i < |keys| ==> lines[i] == "- " + keys[i] + "：" + points[keys[i]]
  {
    var lines := PointLines(keys, points).value;
    forall i | 0 <= i < |lines| ensures '\n' !in lines[i] {
      assert lines[i] == "- " + keys[i] + "：" + points[keys[i]];
    }
    SplitJoinLines(lines);
  }

  // ---------------------------------------------------------------------
  // The chat log of a session
  // ---------------------------------------------------------------------

  function AssistantTurn(text: string): Message {
    Message(Some(Assistant), Some(text))
  }

  function UserTurn(text: string): Message {
    Message(Some(User), Some(text))
  }

  /** The chat log alternates interviewer and candidate turns, starting with the interviewer, and has even length. */
  predicate Alternates(h: seq<Message>) {
    |h| % 2 == 0 &&
    forall i :: 0 <= i < |h| ==> h[i].content.Some? && h[i].role == Some(if i % 2 == 0 then Assistant else User)
  }

  /** Appending a question and its answer keeps the log alternating. */
  lemma AlternatesAppendPair(h: seq<Message>, question: string, answer: string)
    requires Alternates(h)
    ensures Alternates(h + [AssistantTurn(question), UserTurn(answer)])
  {
    var h' := h + [AssistantTurn(question), UserTurn(answer)];
    forall i | 0 <= i < |h'|
      ensures h'[i].content.Some? && h'[i].role == Some(if i % 2 == 0 then Assistant else User)
    {
      if i < |h| { assert h'[i] == h[i]; }
    }
  }

  /** An alternating log renders without error, its lines alternating between the interviewer's and the candidate's label. */
  lemma AlternatingTranscript(h: seq<Message>)
    requires Alternates(h)
    ensures GetHistoryText(h).Ok?
    ensures forall i :: 0 <= i < |h| ==>
              HistoryLines(h).value[i] == (if i % 2 == 0 then InterviewerLabel else CandidateLabel) + h[i].content.value
  {
    assert forall i :: 0 <= i < |h| ==> WellFormed(h[i]);
    assert SpeakerLabel(User) == CandidateLabel;
  }

  /**
   * Each answered question extends a non-empty transcript by exactly two
   * lines: the interviewer's question, then the candidate's answer.
   */
  lemma AnswerExtendsTranscript(h: seq<Message>, question: string, answer: string)
    requires Alternates(h) && h != []
    ensures GetHistoryText(h + [AssistantTurn(question), UserTurn(answer)]) ==
            Ok(GetHistoryText(h).value + "\n" + InterviewerLabel + question + "\n" + CandidateLabel + answer)
  {
    AlternatingTranscript(h);
    var h1 := h + [AssistantTurn(question)];
    assert forall i :: 0 <= i < |h| ==> WellFormed(h[i]);
    HistoryTextSnoc(h, AssistantTurn(question));
    assert forall i :: 0 <= i < |h1| ==> WellFormed(h1[i]);
    HistoryTextSnoc(h1, UserTurn(answer));
    assert h1 + [UserTurn(answer)] == h + [AssistantTurn(question), UserTurn(answer)];
    assert SpeakerLabel(User) == CandidateLabel;
  }

  /** The follow-up rule: a follow-up is asked iff the judge said exactly "Yes" and fewer than MaxDepth follow-ups were asked. */
  predicate FollowsUp(judgeResult: string, depth: nat) {
    judgeResult == FollowupVerdict && depth < MaxDepth
  }

  predicate ProfileComplete(p: Profile) {
    p.age != "" && p.currentGyokai != "" && p.currentJob != "" && p.targetJob != "" &&
    p.role != "" && p.experienceYears != "" && p.targetGyokai != ""
  }

  // ---------------------------------------------------------------------
  // The session state
  // ---------------------------------------------------------------------

  /**
   * The session state: one field per session key. The bundle `config` is
   * resolved before the session starts and never changes.
   */
  class InterviewSession {
    const config: Config
    var stage: Stage
    var chatHistory: seq<Message>
    var profile: Option<Profile>
    var currentQuestion: nat
    var depthCount: nat
    var introGiven: bool
    var apiKey: string
    var llmConfigured: bool
    var isInterrupted: bool
    /** The keys `question_{i}`: the text last generated for catalog question i. */
    var questionCache: map<nat, string>
    var feedbackResult: Option<string>

    ghost predicate Valid()
      reads this
    {
      ConfigValid(config)
      && depthCount <= MaxDepth
      && currentQuestion <= |config.questions|
      && Alternates(chatHistory)
      && (introGiven <==> chatHistory != [])
      && (chatHistory != [] ==> chatHistory[0] == AssistantTurn(IntroMessage))
      && (forall k :: k in questionCache ==> k <= currentQuestion && k < |config.questions|)
      && (stage == Questions ==> introGiven && currentQuestion < |config.questions|)
      && (stage in {ApiKeyEntry, ProfileEntry, Intro} ==>
            !introGiven && currentQuestion == 0 && depthCount == 0 && questionCache == map[])
      && (llmConfigured <==> stage != ApiKeyEntry)
      && (stage == ApiKeyEntry ==> apiKey == "")
      && (stage != ApiKeyEntry ==> ApiKeyPrefix <= apiKey)
      && (profile.None? <==> stage in {ApiKeyEntry, ProfileEntry})
      && (profile.Some? ==> ProfileComplete(profile.value))
      && (isInterrupted ==> stage == Feedback)
      && (feedbackResult.Some? ==> stage == Feedback)
    }

    /** The state of a fresh session, and of every session after a restart. */
    ghost predicate Initial()
      reads this
    {
      stage == ApiKeyEntry && chatHistory == [] && profile == None &&
      currentQuestion == 0 && depthCount == 0 && !introGiven &&
      apiKey == "" && !llmConfigured && !isInterrupted &&
      questionCache == map[] && feedbackResult == None
    }

    /** The rules text for the stored profile. */
    function RulesText(): string
      reads this
      requires ConfigValid(config) && profile.Some?
    {
      GetRules(config.rulesTemplate, profile.value).value
    }

    /** The evaluation-points text of catalog question i. */
    function PointsText(i: nat): string
      requires ConfigValid(config) && i < |config.questions|
    {
      EvaluationPointsText(config.questions[i].pointKeys, config.evaluationPoints).value
    }

    /** The chat log as the transcript handed to the language model. */
    function HistoryText(): string
      reads this
      requires Alternates(chatHistory)
    {
      AlternatingTranscript(chatHistory);
      GetHistoryText(chatHistory).value
    }

    /** Session initialisation on an empty session state. */
    constructor (config: Config)
      requires ConfigValid(config)
      ensures this.config == config
      ensures Initial() && Valid()
    {
      this.config := config;
      stage := ApiKeyEntry;
      chatHistory := [];
      profile := None;
      currentQuestion := 0;
      depthCount := 0;
      introGiven := false;
      apiKey := "";
      llmConfigured := false;
      isInterrupted := false;
      questionCache := map[];
      feedbackResult := None;
    }

    /** Appends one entry with the given role and content to the chat log. */
    method AddMessage(role: string, content: string)
      modifies this`chatHistory
      ensures chatHistory == old(chatHistory) + [Message(Some(role), Some(content))]
    {
      chatHistory := chatHistory + [Message(Some(role), Some(content))];
    }

    /**
     * Wipes the whole session state, profile included; the next run
     * initialises it again.
     */
    method Reset()
      requires Valid()
      modifies this
      ensures Initial() && Valid()
    {
      stage := ApiKeyEntry;
      chatHistory := [];
      profile := None;
      currentQuestion := 0;
      depthCount := 0;
      introGiven := false;
      apiKey := "";
      llmConfigured := false;
      isInterrupted := false;
      questionCache := map[];
      feedbackResult := None;
    }

    /** Ends the interview early: straight to feedback, marked as interrupted. */
    method SkipToFeedback()
      requires Valid() && (stage == Intro || stage == Questions)
      modifies this`stage, this`isInterrupted
      ensures Valid()
      ensures stage == Feedback && isInterrupted
    {
      stage := Feedback;
      isInterrupted := true;
    }

    /**
     * The API key form: the key is taken, and the session moves on to the
     * profile, only when it is non-empty, starts with "sk-" and the model
     * client could be set up with it.
     */
    method SubmitApiKey(key: string, setupSucceeds: bool) returns (accepted: bool)
      requires Valid() && stage == ApiKeyEntry
      modifies this`llmConfigured, this`apiKey, this`stage
      ensures Valid()
      ensures accepted <==> key != "" && ApiKeyPrefix <= key && setupSucceeds
      ensures accepted ==> llmConfigured && apiKey == key && stage == ProfileEntry
      ensures !accepted ==> llmConfigured == old(llmConfigured) && apiKey == old(apiKey) && stage == old(stage)
    {
      accepted := false;
      if key != "" && ApiKeyPrefix <= key {
        if setupSucceeds {
          llmConfigured := true;
          apiKey := key;
          stage := ProfileEntry;
          accepted := true;
        }
      }
    }

    /** The profile form: stored, and the interview begins, iff all seven fields are non-empty. */
    method SubmitProfile(p: Profile) returns (accepted: bool)
      requires Valid() && stage == ProfileEntry
      modifies this`profile, this`stage
      ensures Valid()
      ensures accepted <==> ProfileComplete(p)
      ensures accepted ==> profile == Some(p) && stage == Intro
      ensures !accepted ==> profile == old(profile) && stage == old(stage)
    {
      accepted := ProfileComplete(p);
      if accepted {
        profile := Some(p);
        stage := Intro;
      }
    }

    /** The self-introduction form: a non-empty introduction opens the log with the request and the answer. */
    method SubmitIntro(text: string) returns (accepted: bool)
      requires Valid() && stage == Intro
      modifies this`chatHistory, this`introGiven, this`stage
      ensures Valid()
      ensures accepted <==> text != ""
      ensures accepted ==>
                chatHistory == [AssistantTurn(IntroMessage), UserTurn(text)] && introGiven && stage == Questions
      ensures !accepted ==> unchanged(this)
    {
      accepted := text != "";
      if accepted {
        AddMessage(Assistant, IntroMessage);
        AddMessage(User, text);
        introGiven := true;
        stage := Questions;
      }
    }

    /**
     * Shows the current question: its text is generated (from `generated`)
     * only when the cache holds none for the current index; the text shown
     * is the cached one with line breaks after each sentence.
     */
    method RenderQuestion(generated: string) returns (request: Option<QuestionRequest>, shown: string)
      requires Valid() && stage == Questions
      modifies this`questionCache
      ensures Valid()
      ensures old(currentQuestion in questionCache) ==> questionCache == old(questionCache) && request == None
      ensures old(currentQuestion !in questionCache) ==>
                questionCache == old(questionCache)[currentQuestion := generated] &&
                request == Some(QuestionRequest(RulesText(), config.questions[currentQuestion].content,
                                                PointsText(currentQuestion), HistoryText()))
      ensures currentQuestion in questionCache
      ensures shown == AddNewlinesByPeriod(questionCache[currentQuestion])
    {
      var points := PointsText(currentQuestion);
      if currentQuestion !in questionCache {
        request := Some(QuestionRequest(RulesText(), config.questions[currentQuestion].content, points, HistoryText()));
        questionCache := questionCache[currentQuestion := generated];
      } else {
        request := None;
      }
      shown := AddNewlinesByPeriod(questionCache[currentQuestion]);
    }

    /**
     * The answer form. A non-empty answer appends the shown question and
     * the answer to the log and is judged on the whole transcript; on a
     * follow-up the depth grows and the cached question is replaced,
     * otherwise the next catalog question (or the feedback) follows.
     */
    method SubmitAnswer(answer: string, judgeResult: string, followup: string)
      returns (judged: Option<string>, request: Option<QuestionRequest>)
      requires Valid() && stage == Questions && currentQuestion in questionCache
      modifies this`chatHistory, this`depthCount, this`currentQuestion, this`questionCache, this`stage
      ensures Valid()
      ensures answer == "" ==> unchanged(this) && judged == None && request == None
      ensures answer != "" ==>
                chatHistory == old(chatHistory) + [AssistantTurn(old(questionCache[currentQuestion])), UserTurn(answer)] &&
                judged == Some(HistoryText())
      ensures answer != "" && FollowsUp(judgeResult, old(depthCount)) ==>
                depthCount == old(depthCount) + 1 && currentQuestion == old(currentQuestion) && stage == Questions &&
                questionCache == old(questionCache)[currentQuestion := followup] &&
                request == Some(QuestionRequest(RulesText(), FollowupInstruction, PointsText(currentQuestion), HistoryText()))
      ensures answer != "" && !FollowsUp(judgeResult, old(depthCount)) ==>
                currentQuestion == old(currentQuestion) + 1 && depthCount == 0 &&
                questionCache == old(questionCache) && request == None &&
                stage == (if currentQuestion >= |config.questions| then Feedback else Questions)
    {
      if answer == "" {
        judged, request := None, None;
        return;
      }
      var question := questionCache[currentQuestion];
      var points := PointsText(currentQuestion);
      AlternatesAppendPair(chatHistory, question, answer);
      AddMessage(Assistant, question);
      AddMessage(User, answer);
      judged := Some(HistoryText());
      if judgeResult == FollowupVerdict && depthCount < MaxDepth {
        depthCount := depthCount + 1;
        request := Some(QuestionRequest(RulesText(), FollowupInstruction, points, HistoryText()));
        questionCache := questionCache[currentQuestion := followup];
      } else {
        request := None;
        currentQuestion := currentQuestion + 1;
        depthCount := 0;
        if currentQuestion >= |config.questions| {
          stage := Feedback;
        }
      }
    }

    /**
     * Shows the feedback: generated (from `generated`) only when none is
     * stored, with the partial variant iff the interview was interrupted,
     * and stored with line breaks after each sentence.
     */
    method RenderFeedback(generated: string) returns (request: Option<FeedbackRequest>, shown: string)
      requires Valid() && stage == Feedback
      modifies this`feedbackResult
      ensures Valid()
      ensures old(feedbackResult).Some? ==> feedbackResult == old(feedbackResult) && request == None
      ensures old(feedbackResult).None? ==>
                feedbackResult == Some(AddNewlinesByPeriod(generated)) &&
                request == Some(FeedbackRequest(if isInterrupted then Partial else Full, config.evaluationPoints, HistoryText()))
      ensures feedbackResult.Some? && shown == feedbackResult.value
    {
      if feedbackResult.None? {
        var variant := if isInterrupted then Partial else Full;
        request := Some(FeedbackRequest(variant, config.evaluationPoints, HistoryText()));
        feedbackResult := Some(AddNewlinesByPeriod(generated));
      } else {
        request := None;
      }
      shown := feedbackResult.value;
    }
  }

  /**
   * A client of the session: on a question just shown, three answers the
   * judge wants probed raise the depth to the cap; the fourth answer moves
   * on to the next question although the judge still says "Yes".
   */
  method FollowupCapScenario(s: InterviewSession, f1: string, f2: string, f3: string)
    requires s.Valid() && s.stage == Questions && s.depthCount == 0 && s.currentQuestion in s.questionCache
    modifies s
  {
    var q := s.currentQuestion;
    var judged, followup := s.SubmitAnswer("a1", "Yes", f1);
    assert s.depthCount == 1 && s.currentQuestion == q && followup.Some?;
    var request, shown := s.RenderQuestion("not generated");
    assert request == None && shown == AddNewlinesByPeriod(f1);
    judged, followup := s.SubmitAnswer("a2", "Yes", f2);
    judged, followup := s.SubmitAnswer("a3", "Yes", f3);
    assert s.depthCount == MaxDepth && s.currentQuestion == q && s.questionCache[q] == f3;
    judged, followup := s.SubmitAnswer("a4", "Yes", "not generated");
    assert judged.Some? && followup == None;
    assert s.currentQuestion == q + 1 && s.depthCount == 0;
  }
}
