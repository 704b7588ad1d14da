/** The per-domain quiz session of the background coordinator: its record,
    the built-in fallback questions, how a session's questions are chosen,
    and the pure transitions an answer or a "next question" request makes.
    The coordinator (module ServiceWorker) stores sessions in a map and
    applies these transitions atomically. */
module QuizSession {
  import opened Wrappers
  import opened Text
  import opened Types
  import opened Storage

  /** The streak length that unblocks a domain. */
  const REQUIRED_CORRECT: nat := 5

  datatype DomainQuizState = DomainQuizState(
    questions: seq<QuizQuestion>,
    currentQuestionIndex: nat,
    consecutiveCorrect: nat,
    requiredCorrect: nat,
    wrongAnswers: seq<WrongAnswer>,
    lastWrongSelectedIndex: Option<int>)

  /** Well-formed every question: four options and a correct index among them. */
  predicate WellFormed(qs: seq<QuizQuestion>) {
    forall k :: 0 <= k < |qs| ==> |qs[k].options| == 4 && 0.0 <= qs[k].correctIndex <= 3.0
  }

  /** The fixed, deterministic question set used whenever the backend cannot
      supply questions. */
  function FallbackQuestions(): (qs: seq<QuizQuestion>)
    ensures |qs| == 5 && WellFormed(qs)
    ensures forall k :: 0 <= k < |qs| ==> qs[k].explanation.None?
  {
    [ QuizQuestion("fb1", "What is the capital of France?",
                   ["London", "Berlin", "Paris", "Madrid"], 2.0, None),
      QuizQuestion("fb2", "What is 7 x 8?",
                   ["54", "56", "58", "62"], 1.0, None),
      QuizQuestion("fb3", "Which planet is known as the Red Planet?",
                   ["Venus", "Mars", "Jupiter", "Saturn"], 1.0, None),
      QuizQuestion("fb4", "What year did the World Wide Web become publicly available?",
                   ["1989", "1991", "1993", "1995"], 1.0, None),
      QuizQuestion("fb5", "What is the chemical symbol for gold?",
                   ["Ag", "Fe", "Au", "Cu"], 2.0, None) ]
  }

  /** What the question request came back with: any failure (network error,
      a non-2xx status, an unreadable body) or the decoded question array. */
  datatype FetchOutcome = FetchFailed | Fetched(questions: seq<QuizQuestion>)

  /** JavaScript truthiness of an optional string: present and non-empty. */
  predicate Truthy(s: Option<string>) {
    s.Some? && s.value != ""
  }

  predicate HasToken(user: Option<StoredUser>) {
    user.Some? && user.value.token != ""
  }

  /** `fetchQuizQuestions`: the fallback set unless a room is active, a token
      is stored and the request succeeded; then whatever the server sent. */
  function FetchQuizQuestions(activeRoomId: Option<string>, user: Option<StoredUser>,
                              outcome: FetchOutcome): (qs: seq<QuizQuestion>)
    ensures !Truthy(activeRoomId) || !HasToken(user) || outcome.FetchFailed? ==>
              qs == FallbackQuestions()
    ensures Truthy(activeRoomId) && HasToken(user) && outcome.Fetched? ==>
              qs == outcome.questions
  {
    if !Truthy(activeRoomId) || !HasToken(user) then FallbackQuestions()
    else match outcome
      case FetchFailed => FallbackQuestions()
      case Fetched(questions) => questions
  }

  /** Without a room, without a token, or on a failed request, a session
      always gets five well-formed questions. */
  lemma FallbackAvailable(activeRoomId: Option<string>, user: Option<StoredUser>,
                          outcome: FetchOutcome)
    requires !Truthy(activeRoomId) || !HasToken(user) || outcome.FetchFailed?
    ensures var qs := FetchQuizQuestions(activeRoomId, user, outcome);
            |qs| == 5 && WellFormed(qs)
  {
  }

  /** A fresh session over the given questions. */
  function NewSession(questions: seq<QuizQuestion>): (s: DomainQuizState)
    ensures s.questions == questions
    ensures s.currentQuestionIndex == 0 && s.consecutiveCorrect == 0
    ensures s.requiredCorrect == REQUIRED_CORRECT
    ensures s.wrongAnswers == [] && s.lastWrongSelectedIndex.None?
  {
    DomainQuizState(questions, 0, 0, REQUIRED_CORRECT, [], None)
  }

  /** The session map after `ensureQuizState(domain)`: an existing session is
      kept as it is; otherwise a fresh one over `questions` is added. No other
      domain's session changes. */
  function EnsureSession(sessions: map<string, DomainQuizState>, domain: string,
                         questions: seq<QuizQuestion>): (r: map<string, DomainQuizState>)
    ensures domain in r && r.Keys == sessions.Keys + {domain}
    ensures domain in sessions ==> r == sessions
    ensures domain !in sessions ==> r[domain] == NewSession(questions)
    ensures forall d :: d in sessions && d != domain ==> r[d] == sessions[d]
  {
    if domain in sessions then sessions else sessions[domain := NewSession(questions)]
  }

  /** Ensuring twice is ensuring once: the second call keeps the first call's
      session, whatever questions it would have fetched. */
  lemma EnsureIdempotent(sessions: map<string, DomainQuizState>, domain: string,
                         q1: seq<QuizQuestion>, q2: seq<QuizQuestion>)
    ensures EnsureSession(EnsureSession(sessions, domain, q1), domain, q2)
            == EnsureSession(sessions, domain, q1)
  {
  }

  /** The question on screen: questions are used in order, wrapping round. */
  function CurrentQuestion(s: DomainQuizState): (q: QuizQuestion)
    requires |s.questions| > 0
    ensures q in s.questions
  {
    s.questions[s.currentQuestionIndex % |s.questions|]
  }

  /** The audit entry a wrong answer leaves. */
  function WrongEntry(q: QuizQuestion, selectedIndex: int): WrongAnswer {
    WrongAnswer(q.question, q.options, q.correctIndex, selectedIndex, None)
  }

  /** How an answer to the question on screen is treated. */
  datatype AnswerKind = Right | RepeatWrong | NewWrong

  /** A right answer matches the question's `correctIndex`; a wrong one is a
      repeat when it equals the last wrong selection (whatever question that
      was given for), otherwise new. */
  function Classify(s: DomainQuizState, selectedIndex: int): AnswerKind
    requires |s.questions| > 0
  {
    if selectedIndex as real == CurrentQuestion(s).correctIndex then Right
    else if s.lastWrongSelectedIndex == Some(selectedIndex) then RepeatWrong
    else NewWrong
  }

  /** A session still being answered, or the session as it stood when the
      streak was completed (it is then torn down). */
  datatype Progress = InQuiz(session: DomainQuizState) | Complete(session: DomainQuizState)

  /** The effect of one answer on a session that has questions. */
  function Answer(s: DomainQuizState, selectedIndex: int): (p: Progress)
    requires |s.questions| > 0
    ensures p.session.questions == s.questions && p.session.requiredCorrect == s.requiredCorrect
    ensures Classify(s, selectedIndex) == Right ==>
      && p.session.consecutiveCorrect == s.consecutiveCorrect + 1
      && p.session.lastWrongSelectedIndex.None?
      && p.session.wrongAnswers == s.wrongAnswers
      && (p.Complete? <==> s.consecutiveCorrect + 1 >= s.requiredCorrect)
      && (p.InQuiz? ==> p.session.currentQuestionIndex == s.currentQuestionIndex + 1)
    ensures Classify(s, selectedIndex) == RepeatWrong ==> p == InQuiz(s)
    ensures Classify(s, selectedIndex) == NewWrong ==>
      && p.InQuiz?
      && p.session.consecutiveCorrect == 0
      && p.session.lastWrongSelectedIndex == Some(selectedIndex)
      && p.session.currentQuestionIndex == s.currentQuestionIndex
      && p.session.wrongAnswers == s.wrongAnswers + [WrongEntry(CurrentQuestion(s), selectedIndex)]
  {
    var q := CurrentQuestion(s);
    if selectedIndex as real == q.correctIndex then
      var t := s.(consecutiveCorrect := s.consecutiveCorrect + 1, lastWrongSelectedIndex := None);
      if t.consecutiveCorrect >= t.requiredCorrect then Complete(t)
      else InQuiz(t.(currentQuestionIndex := t.currentQuestionIndex + 1))
    else if s.lastWrongSelectedIndex.Some? && selectedIndex == s.lastWrongSelectedIndex.value then
      InQuiz(s)
    else
      InQuiz(s.(consecutiveCorrect := 0,
                lastWrongSelectedIndex := Some(selectedIndex),
                wrongAnswers := s.wrongAnswers + [WrongEntry(q, selectedIndex)]))
  }

  /** `handleNextQuestion`'s change to a session: on to the next question,
      with the repeat-wrong guard cleared; streak and audit trail kept. */
  function Next(s: DomainQuizState): (t: DomainQuizState)
    ensures t.currentQuestionIndex == s.currentQuestionIndex + 1
    ensures t.lastWrongSelectedIndex.None?
    ensures t.consecutiveCorrect == s.consecutiveCorrect && t.wrongAnswers == s.wrongAnswers
    ensures t.questions == s.questions && t.requiredCorrect == s.requiredCorrect
  {
    s.(currentQuestionIndex := s.currentQuestionIndex + 1, lastWrongSelectedIndex := None)
  }

  /** A session the coordinator may hold: the fixed requirement, and a streak
      still short of it (a completed streak tears the session down). */
  predicate SessionOk(s: DomainQuizState) {
    s.requiredCorrect == REQUIRED_CORRECT && s.consecutiveCorrect < s.requiredCorrect
  }

  /** Answers and "next" requests keep every session the coordinator holds
      well-formed. */
  lemma TransitionsKeepSessionOk(s: DomainQuizState, selectedIndex: int)
    requires SessionOk(s) && |s.questions| > 0
    ensures Answer(s, selectedIndex).InQuiz? ==> SessionOk(Answer(s, selectedIndex).session)
    ensures SessionOk(Next(s))
  {
  }

  lemma NewSessionOk(questions: seq<QuizQuestion>)
    ensures SessionOk(NewSession(questions))
  {
  }

  /** A session whose streak reached the requirement but which was not torn
      down, because the completion was cut short: its guard is clear. */
  predicate Spent(s: DomainQuizState) {
    && s.requiredCorrect == REQUIRED_CORRECT && s.consecutiveCorrect >= s.requiredCorrect
    && s.lastWrongSelectedIndex.None?
  }

  /** The session a completing answer leaves is spent, and a spent session
      completes on its very next right answer; any other answer resets it to
      a well-formed session, and moving on keeps it spent. */
  lemma {:induction false} SpentTransitions(s: DomainQuizState, selectedIndex: int)
    requires SessionOk(s) || Spent(s)
    requires |s.questions| > 0
    ensures Answer(s, selectedIndex).Complete? ==> Spent(Answer(s, selectedIndex).session)
    ensures Spent(s) && Classify(s, selectedIndex) == Right ==> Answer(s, selectedIndex).Complete?
    ensures Answer(s, selectedIndex).InQuiz? ==> SessionOk(Answer(s, selectedIndex).session)
    ensures Spent(s) ==> Spent(Next(s))
  {
    if Spent(s) {
      assert Classify(s, selectedIndex) != RepeatWrong;
    }
  }

  /** Submitting the same wrong choice right after it was recorded changes
      nothing: the streak is not reset again and no second entry is logged. */
  lemma RepeatedWrongIsNoOp(s: DomainQuizState, selectedIndex: int)
    requires |s.questions| > 0 && Classify(s, selectedIndex) == NewWrong
    ensures var t := Answer(s, selectedIndex).session;
            Answer(t, selectedIndex) == InQuiz(t)
  {
    var t := Answer(s, selectedIndex).session;
    assert CurrentQuestion(t) == CurrentQuestion(s);
  }

  /** The kind of feedback shown with a quiz snapshot. */
  datatype FeedbackType = CorrectFeedback | WrongFeedback | SuccessFeedback

  /** A question served with a fractional correct index cannot be answered
      right: every choice stays on the question and either resets the
      streak or, repeating the last wrong one, changes nothing; only moving
      on gets past it. */
  lemma FractionalIndexUnanswerable(s: DomainQuizState, selectedIndex: int)
    requires |s.questions| > 0
    requires CurrentQuestion(s).correctIndex != CurrentQuestion(s).correctIndex.Floor as real
    ensures Classify(s, selectedIndex) != Right
    ensures Answer(s, selectedIndex).InQuiz?
    ensures Answer(s, selectedIndex) == InQuiz(s)
            || Answer(s, selectedIndex).session.consecutiveCorrect == 0
    ensures Answer(s, selectedIndex).session.currentQuestionIndex == s.currentQuestionIndex
  {
    assert (selectedIndex as real).Floor == selectedIndex;
  }

  /** The feedback broadcast after an answer that leaves the quiz running:
      a right answer counts the answers still needed after it, a repeated
      wrong choice asks for another one, and a new wrong answer carries the
      trimmed explanation whenever that is non-empty. */
  function AnswerFeedback(s: DomainQuizState, selectedIndex: int): (f: (string, FeedbackType))
    requires |s.questions| > 0
    ensures Classify(s, selectedIndex) == Right <==> f.1 == CorrectFeedback
    ensures Classify(s, selectedIndex) == Right && Answer(s, selectedIndex).InQuiz? ==>
              var t := Answer(s, selectedIndex).session;
              f.0 == "Correct - " + NatToDecimal(t.requiredCorrect - t.consecutiveCorrect) + " more to go"
    ensures Classify(s, selectedIndex) == RepeatWrong ==>
              f == ("Pick a different answer for this question.", WrongFeedback)
    ensures Classify(s, selectedIndex) == NewWrong ==>
              var q := CurrentQuestion(s);
              var hasWhy := q.explanation.Some? && Trim(q.explanation.value) != "";
              && f.1 == WrongFeedback
              && "Wrong answer." <= f.0
              && (hasWhy <==> f.0 != "Wrong answer.")
              && (hasWhy ==> |Trim(q.explanation.value)| <= |f.0|
                             && f.0[|f.0| - |Trim(q.explanation.value)|..] == Trim(q.explanation.value))
  {
    var q := CurrentQuestion(s);
    match Classify(s, selectedIndex)
    case Right =>
      var remaining := if s.consecutiveCorrect + 1 < s.requiredCorrect
                       then s.requiredCorrect - (s.consecutiveCorrect + 1) else 0;
      ("Correct - " + NatToDecimal(remaining) + " more to go", CorrectFeedback)
    case RepeatWrong =>
      ("Pick a different answer for this question.", WrongFeedback)
    case NewWrong =>
      var explanation := if q.explanation.Some? then Trim(q.explanation.value) else "";
      if explanation != "" then
        ("Wrong answer.\n\nWhy this is correct:\n" + explanation, WrongFeedback)
      else ("Wrong answer.", WrongFeedback)
  }

  /** The `BLOCK_PAGE` snapshot sent to tabs. */
  datatype BlockMessage = BlockMessage(
    questions: seq<QuizQuestion>,
    currentQuestionIndex: nat,
    consecutiveCorrect: nat,
    requiredCorrect: nat,
    lastWrongSelectedIndex: Option<int>,
    feedbackText: Option<string>,
    feedbackType: Option<FeedbackType>)

  /** `buildBlockMessage`: the tab is shown the session's own question on
      screen, streak and guard, plus the given feedback. */
  function BuildBlockMessage(s: DomainQuizState, feedbackText: Option<string>,
                             feedbackType: Option<FeedbackType>): (m: BlockMessage)
    ensures m.questions == s.questions && m.currentQuestionIndex == s.currentQuestionIndex
    ensures |m.questions| > 0 ==> m.questions[m.currentQuestionIndex % |m.questions|] == CurrentQuestion(s)
    ensures m.consecutiveCorrect == s.consecutiveCorrect && m.requiredCorrect == s.requiredCorrect
    ensures m.lastWrongSelectedIndex == s.lastWrongSelectedIndex
    ensures m.feedbackText == feedbackText && m.feedbackType == feedbackType
  {
    BlockMessage(s.questions, s.currentQuestionIndex, s.consecutiveCorrect, s.requiredCorrect,
                 s.lastWrongSelectedIndex, feedbackText, feedbackType)
  }

  // ---- Runs of answers ----

  /** One answer message: after completion (the domain is unblocked) or on a
      session without questions it is a no-op. */
  function Step(p: Progress, selectedIndex: int): Progress {
    match p
    case Complete(_) => p
    case InQuiz(s) => if |s.questions| == 0 then p else Answer(s, selectedIndex)
  }

  /** A session after a run of answers, in order. */
  function Run(s: DomainQuizState, answers: seq<int>): Progress
    decreases |answers|
  {
    if answers == [] then InQuiz(s)
    else Step(Run(s, answers[..|answers| - 1]), answers[|answers| - 1])
  }

  lemma RunSnoc(s: DomainQuizState, answers: seq<int>, a: int)
    ensures Run(s, answers + [a]) == Step(Run(s, answers), a)
  {
    assert (answers + [a])[..|answers|] == answers;
  }

  /** How each answer of a run that reached the session was treated. */
  function Kinds(s: DomainQuizState, answers: seq<int>): seq<AnswerKind>
    decreases |answers|
  {
    if answers == [] then []
    else
      var before := answers[..|answers| - 1];
      var p := Run(s, before);
      Kinds(s, before) +
        (if p.InQuiz? && |p.session.questions| > 0
         then [Classify(p.session, answers[|answers| - 1])] else [])
  }

  /** The answers that count: repeated identical wrong choices dropped. */
  function Effective(ks: seq<AnswerKind>): seq<AnswerKind>
    decreases |ks|
  {
    if ks == [] then []
    else Effective(ks[..|ks| - 1]) + (if ks[|ks| - 1] == RepeatWrong then [] else [ks[|ks| - 1]])
  }

  /** The length of the run of right answers at the end of `ks`. */
  function TrailingRight(ks: seq<AnswerKind>): nat
    decreases |ks|
  {
    if ks == [] || ks[|ks| - 1] != Right then 0 else TrailingRight(ks[..|ks| - 1]) + 1
  }

  function CountNewWrong(ks: seq<AnswerKind>): nat
    decreases |ks|
  {
    if ks == [] then 0
    else CountNewWrong(ks[..|ks| - 1]) + (if ks[|ks| - 1] == NewWrong then 1 else 0)
  }

  lemma SnocFacts(ks: seq<AnswerKind>, k: AnswerKind)
    ensures (ks + [k])[..|ks|] == ks && (ks + [k])[|ks|] == k
  {
  }

  /** A repeated identical wrong choice does not count; any other answer does. */
  lemma EffectiveSnoc(ks: seq<AnswerKind>, k: AnswerKind)
    ensures Effective(ks + [k]) == Effective(ks) + (if k == RepeatWrong then [] else [k])
  {
    SnocFacts(ks, k);
  }

  /** A right answer extends the trailing run; any other answer ends it. */
  lemma TrailingRightSnoc(ks: seq<AnswerKind>, k: AnswerKind)
    ensures TrailingRight(ks + [k]) == if k == Right then TrailingRight(ks) + 1 else 0
  {
    SnocFacts(ks, k);
  }

  /** The kinds of a run, one answer longer. */
  lemma KindsSnoc(s: DomainQuizState, answers: seq<int>)
    requires answers != []
    ensures var before := answers[..|answers| - 1];
            var p := Run(s, before);
            Kinds(s, answers) ==
              Kinds(s, before) +
              (if p.InQuiz? && |p.session.questions| > 0
               then [Classify(p.session, answers[|answers| - 1])] else [])
  {
  }

  /** Streak correctness: on a fresh streak, the streak after any run of
      answers is the number of right answers at the end of the run once
      repeated identical wrong choices are ignored, and the session completes
      exactly when that number reaches the requirement. */
  lemma {:induction false} StreakIsTrailingRightAnswers(s: DomainQuizState, answers: seq<int>)
    requires |s.questions| > 0 && s.consecutiveCorrect == 0 && s.requiredCorrect > 0
    ensures var p := Run(s, answers);
            var t := TrailingRight(Effective(Kinds(s, answers)));
            && p.session.consecutiveCorrect == t
            && (p.Complete? <==> t == s.requiredCorrect)
            && (p.InQuiz? ==> t < s.requiredCorrect)
            && p.session.questions == s.questions
            && p.session.requiredCorrect == s.requiredCorrect
    decreases |answers|
  {
    if answers != [] {
      var before := answers[..|answers| - 1];
      var a := answers[|answers| - 1];
      StreakIsTrailingRightAnswers(s, before);
      var p0 := Run(s, before);
      var ks0 := Kinds(s, before);
      assert Run(s, answers) == Step(p0, a);
      KindsSnoc(s, answers);
      if p0.InQuiz? {
        var k := Classify(p0.session, a);
        assert Kinds(s, answers) == ks0 + [k];
        EffectiveSnoc(ks0, k);
        if k != RepeatWrong {
          TrailingRightSnoc(Effective(ks0), k);
        } else {
          assert Effective(ks0 + [k]) == Effective(ks0);
        }
      } else {
        assert Kinds(s, answers) == ks0;
      }
    }
  }

  /** The audit trail grows by exactly one entry per new wrong answer. */
  lemma {:induction false} WrongAnswersCountNewWrong(s: DomainQuizState, answers: seq<int>)
    ensures |Run(s, answers).session.wrongAnswers| == |s.wrongAnswers| + CountNewWrong(Kinds(s, answers))
    ensures Run(s, answers).session.wrongAnswers[..|s.wrongAnswers|] == s.wrongAnswers
    decreases |answers|
  {
    if answers != [] {
      var before := answers[..|answers| - 1];
      var a := answers[|answers| - 1];
      WrongAnswersCountNewWrong(s, before);
      var p0 := Run(s, before);
      var ks0 := Kinds(s, before);
      if p0.InQuiz? && |p0.session.questions| > 0 {
        var k := Classify(p0.session, a);
        assert Kinds(s, answers) == ks0 + [k];
        SnocFacts(ks0, k);
        var w0 := p0.session.wrongAnswers;
        var w1 := Run(s, answers).session.wrongAnswers;
        assert w1[..|s.wrongAnswers|] == w0[..|s.wrongAnswers|];
      } else {
        assert Kinds(s, answers) == ks0;
      }
    }
  }

  /** The fallback set's correct choices, in order. */
  lemma FallbackAnswerKey()
    ensures var qs := FallbackQuestions();
            qs[0].correctIndex == 2.0 && qs[1].correctIndex == 1.0 && qs[2].correctIndex == 1.0
            && qs[3].correctIndex == 1.0 && qs[4].correctIndex == 2.0
  {
  }

  /** One answer message on a running session whose question on screen has
      correct choice `a`, answered with `a`. */
  lemma RightStep(s: DomainQuizState, a: int)
    requires |s.questions| > 0 && CurrentQuestion(s).correctIndex == a as real
    ensures Step(InQuiz(s), a) ==
      if s.consecutiveCorrect + 1 >= s.requiredCorrect
      then Complete(s.(consecutiveCorrect := s.consecutiveCorrect + 1, lastWrongSelectedIndex := None))
      else InQuiz(s.(consecutiveCorrect := s.consecutiveCorrect + 1,
                     currentQuestionIndex := s.currentQuestionIndex + 1,
                     lastWrongSelectedIndex := None))
  {
  }

  /** The scenario's requirement on five questions: the fallback set's
      correct choices. */
  predicate ScenarioKey(qs: seq<QuizQuestion>) {
    |qs| == 5 && qs[0].correctIndex == 2.0 && qs[1].correctIndex == 1.0 && qs[2].correctIndex == 1.0
    && qs[3].correctIndex == 1.0 && qs[4].correctIndex == 2.0
  }

  /** The session after the scenario's first four answers: right, right, a
      wrong choice, and the same wrong choice again. */
  function AfterFour(qs: seq<QuizQuestion>): DomainQuizState
    requires |qs| == 5
  {
    NewSession(qs).(consecutiveCorrect := 0, currentQuestionIndex := 2,
                    lastWrongSelectedIndex := Some(0), wrongAnswers := [WrongEntry(qs[2], 0)])
  }

  lemma ScenarioFirstFour(qs: seq<QuizQuestion>)
    requires ScenarioKey(qs)
    ensures Run(NewSession(qs), [2, 1, 0, 0]) == InQuiz(AfterFour(qs))
  {
    var s0 := NewSession(qs);
    var answers := [2, 1, 0, 0];
    var s1 := s0.(consecutiveCorrect := 1, currentQuestionIndex := 1);
    var s2 := s0.(consecutiveCorrect := 2, currentQuestionIndex := 2);
    var s3 := AfterFour(qs);
    assert Run(s0, answers[..1]) == InQuiz(s1) by {
      RunSnoc(s0, answers[..0], 2);
      assert CurrentQuestion(s0) == qs[0] by { assert |s0.questions| == 5 && 0 % 5 == 0; }
      RightStep(s0, 2);
      assert answers[..1] == answers[..0] + [2];
    }
    assert Run(s0, answers[..2]) == InQuiz(s2) by {
      RunSnoc(s0, answers[..1], 1);
      assert CurrentQuestion(s1) == qs[1] by { assert |s1.questions| == 5 && 1 % 5 == 1; }
      RightStep(s1, 1);
      assert answers[..2] == answers[..1] + [1];
    }
    assert Run(s0, answers[..3]) == InQuiz(s3) by {
      RunSnoc(s0, answers[..2], 0);
      assert CurrentQuestion(s2) == qs[2] by { assert |s2.questions| == 5 && 2 % 5 == 2; }
      assert answers[..3] == answers[..2] + [0];
    }
    assert Run(s0, answers[..4]) == InQuiz(s3) by {
      RunSnoc(s0, answers[..3], 0);
      assert CurrentQuestion(s3) == qs[2] by { assert |s3.questions| == 5 && 2 % 5 == 2; }
      assert answers[..4] == answers[..3] + [0];
    }
    assert answers[..4] == answers;
  }

  /** The session after two more right answers: the streak is 2 and the
      wrong choice is forgotten, the audit entry kept. */
  function AfterSix(qs: seq<QuizQuestion>): DomainQuizState
    requires |qs| == 5
  {
    AfterFour(qs).(consecutiveCorrect := 2, currentQuestionIndex := 4, lastWrongSelectedIndex := None)
  }

  lemma ScenarioFirstSix(qs: seq<QuizQuestion>)
    requires ScenarioKey(qs)
    ensures Run(NewSession(qs), [2, 1, 0, 0, 1, 1]) == InQuiz(AfterSix(qs))
  {
    var s0 := NewSession(qs);
    var answers := [2, 1, 0, 0, 1, 1];
    var s3 := AfterFour(qs);
    var s5 := s3.(consecutiveCorrect := 1, currentQuestionIndex := 3, lastWrongSelectedIndex := None);
    assert Run(s0, answers[..4]) == InQuiz(s3) by {
      ScenarioFirstFour(qs);
      assert answers[..4] == [2, 1, 0, 0];
    }
    assert Run(s0, answers[..5]) == InQuiz(s5) by {
      RunSnoc(s0, answers[..4], 1);
      assert CurrentQuestion(s3) == qs[2] by { assert |s3.questions| == 5 && 2 % 5 == 2; }
      RightStep(s3, 1);
      assert answers[..5] == answers[..4] + [1];
    }
    assert Run(s0, answers) == InQuiz(AfterSix(qs)) by {
      RunSnoc(s0, answers[..5], 1);
      assert CurrentQuestion(s5) == qs[3] by { assert |s5.questions| == 5 && 3 % 5 == 3; }
      RightStep(s5, 1);
      assert answers == answers[..5] + [1];
    }
  }

  /** The worked run below, on any five questions with the fallback set's
      correct choices. */
  lemma ScenarioRun(qs: seq<QuizQuestion>)
    requires ScenarioKey(qs)
    ensures var p := Run(NewSession(qs), [2, 1, 0, 0, 1, 1, 2, 2, 1]);
            p.Complete? && |p.session.wrongAnswers| == 1
  {
    var s0 := NewSession(qs);
    var answers := [2, 1, 0, 0, 1, 1, 2, 2, 1];
    var s6 := AfterSix(qs);
    var s7 := s6.(consecutiveCorrect := 3, currentQuestionIndex := 5);
    var s8 := s6.(consecutiveCorrect := 4, currentQuestionIndex := 6);
    var s9 := s8.(consecutiveCorrect := 5);
    assert Run(s0, answers[..6]) == InQuiz(s6) by {
      ScenarioFirstSix(qs);
      assert answers[..6] == [2, 1, 0, 0, 1, 1];
    }
    assert Run(s0, answers[..7]) == InQuiz(s7) by {
      RunSnoc(s0, answers[..6], 2);
      assert CurrentQuestion(s6) == qs[4] by { assert |s6.questions| == 5 && 4 % 5 == 4; }
      RightStep(s6, 2);
      assert answers[..7] == answers[..6] + [2];
    }
    assert Run(s0, answers[..8]) == InQuiz(s8) by {
      RunSnoc(s0, answers[..7], 2);
      assert CurrentQuestion(s7) == qs[0] by { assert |s7.questions| == 5 && 5 % 5 == 0; }
      RightStep(s7, 2);
      assert answers[..8] == answers[..7] + [2];
    }
    assert Run(s0, answers) == Complete(s9) by {
      RunSnoc(s0, answers[..8], 1);
      assert CurrentQuestion(s8) == qs[1] by { assert |s8.questions| == 5 && 6 % 5 == 1; }
      RightStep(s8, 1);
      assert answers == answers[..8] + [1];
    }
  }

  /** A worked run on the fallback set: right, right, wrong, the same wrong
      again, then five right answers (the questions wrap round after the
      fifth) complete the quiz with exactly one audit entry. */
  lemma FallbackScenario()
    ensures var p := Run(NewSession(FallbackQuestions()), [2, 1, 0, 0, 1, 1, 2, 2, 1]);
            p.Complete? && |p.session.wrongAnswers| == 1
  {
    FallbackAnswerKey();
    ScenarioRun(FallbackQuestions());
  }
}
