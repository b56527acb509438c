/**
 * The application state of App.tsx and its event handlers: the level map's
 * gate, lesson stepping, one quiz attempt, level completion, the time tick
 * and the playlist cursor. Each React state variable these handlers read
 * or set is a field (`isQuizLoading`, the chat panel's state and
 * `showPartnership` are not modelled); each handler is a method that
 * changes only the fields it sets.
 */
module AcademyApp {
  import opened Wrappers
  import opened Types
  import opened Progression
  import opened Seqs

  /**
   * The user state `completeLevel` leaves: unchanged when the active id names
   * no catalogue level, otherwise credited with the rounded shares of the
   * level's XP reward and of the 1000 quiz points.
   */
  function CompletedUser(levels: seq<Level>, active: Option<int>, user: UserState,
                         quizScore: nat, total: nat): (u: UserState)
    requires total > 0
  {
    match FindLevel(levels, active)
    case None => user
    case Some(level) =>
      Credit(user, level.id, RoundedShare(level.xpReward, quizScore, total),
             RoundedShare(ScorePerQuiz, quizScore, total))
  }

  /** Completion earns at most the level's reward in XP and 1000 points, and only the first time. */
  lemma CompletedUserBounds(levels: seq<Level>, active: Option<int>, user: UserState,
                            quizScore: nat, total: nat)
    requires total > 0 && quizScore <= total
    ensures var u := CompletedUser(levels, active, user, quizScore, total);
            && user.xp <= u.xp && user.score <= u.score <= user.score + ScorePerQuiz
            && (FindLevel(levels, active).Some? ==> u.xp <= user.xp + FindLevel(levels, active).value.xpReward)
            && (FindLevel(levels, active).Some? && active.value in user.completedLevelIds ==>
                  u.xp == user.xp && u.score == user.score)
  {
    match FindLevel(levels, active)
    case None =>
    case Some(level) =>
      ShareAtMostReward(level.xpReward, quizScore, total);
      ShareAtMostReward(ScorePerQuiz, quizScore, total);
  }

  class Academy {
    /** `LEVELS_DATA`. */
    const levels: seq<Level>
    /** `PLAYLIST.length`. */
    const playlistLength: nat

    var activeLevelId: Option<int>
    var currentLessonStep: nat
    var currentQuizQuestions: seq<QuizQuestion>
    var currentQuestionIndex: nat
    var quizScore: nat
    var selectedAnswer: Option<int>
    var showExplanation: bool
    var user: UserState
    var isPlaying: bool
    var currentTrackIndex: nat
    var showCertificate: bool

    /** The user level follows XP; completed ids are distinct catalogue ids. */
    ghost predicate UserValid()
      reads this
    {
      && user.level == DerivedLevel(user.xp)
      && Distinct(user.completedLevelIds)
      && forall i :: 0 <= i < |user.completedLevelIds| ==> 1 <= user.completedLevelIds[i] <= |levels|
    }

    /**
     * The quiz cursor rests on a question of the list (or at 0 on an empty
     * list), an answer is shown exactly when one was selected, and the score
     * counts at most the questions answered so far.
     */
    ghost predicate QuizValid()
      reads this
    {
      && (if currentQuizQuestions == [] then currentQuestionIndex == 0 && !showExplanation
          else currentQuestionIndex < |currentQuizQuestions|)
      && (showExplanation <==> selectedAnswer.Some?)
      && quizScore <= currentQuestionIndex + (if showExplanation then 1 else 0)
    }

    ghost predicate Valid()
      reads this
    {
      && Catalog(levels)
      && 0 <= currentTrackIndex < playlistLength
      && UserValid()
      && QuizValid()
    }

    constructor (levels: seq<Level>, playlistLength: nat)
      requires Catalog(levels) && playlistLength > 0
      ensures Valid()
      ensures this.levels == levels && this.playlistLength == playlistLength
      ensures activeLevelId == None && currentLessonStep == 0
      ensures currentQuizQuestions == [] && currentQuestionIndex == 0 && quizScore == 0
      ensures selectedAnswer == None && !showExplanation
      ensures user == UserState(0, 0, 1, [], "Cadet", 0)
      ensures !isPlaying && currentTrackIndex == 0 && !showCertificate
    {
      this.levels := levels;
      this.playlistLength := playlistLength;
      activeLevelId := None;
      currentLessonStep := 0;
      currentQuizQuestions := [];
      currentQuestionIndex := 0;
      quizScore := 0;
      selectedAnswer := None;
      showExplanation := false;
      user := UserState(0, 0, 1, [], "Cadet", 0);
      isPlaying := false;
      currentTrackIndex := 0;
      showCertificate := false;
    }

    /** The score of the attempt never exceeds the number of its questions. */
    lemma QuizScoreBounded()
      requires Valid()
      ensures quizScore <= |currentQuizQuestions|
    {
    }

    /** When as many ids are recorded as the catalogue has levels, every level is completed. */
    lemma CompletedCountMeansAll()
      requires Valid() && |user.completedLevelIds| >= |levels|
      ensures forall k :: 1 <= k <= |levels| ==> k in user.completedLevelIds
    {
      CompletedAll(user.completedLevelIds, |levels|);
    }

    /** `handleLevelClick`: open a level unless the lock rule holds it closed. */
    method LevelClick(level: Level)
      requires Valid()
      modifies this`activeLevelId, this`currentLessonStep
      ensures Valid()
      ensures IsLocked(level, user.completedLevelIds) ==>
                activeLevelId == old(activeLevelId) && currentLessonStep == old(currentLessonStep)
      ensures !IsLocked(level, user.completedLevelIds) ==>
                activeLevelId == Some(level.id) && currentLessonStep == 0
    {
      if level.isLocked && (level.id - 1) !in user.completedLevelIds && level.id != 1 {
        return;
      }
      activeLevelId := Some(level.id);
      currentLessonStep := 0;
    }

    /**
     * `handleNextLesson`. On the last lesson the quiz starts: the static bank
     * followed by the challenge questions `generate` returns for the lessons'
     * text (the awaited `generateChallengeQuestions`), with a fresh cursor,
     * score and selection. Otherwise the lesson cursor moves on.
     */
    method NextLesson(generate: string -> seq<QuizQuestion>)
      requires Valid()
      modifies this`currentLessonStep, this`currentQuizQuestions, this`currentQuestionIndex
      modifies this`quizScore, this`selectedAnswer, this`showExplanation
      ensures Valid()
      ensures FindLevel(levels, activeLevelId).None? ==>
                && currentLessonStep == old(currentLessonStep)
                && currentQuizQuestions == old(currentQuizQuestions)
                && currentQuestionIndex == old(currentQuestionIndex) && quizScore == old(quizScore)
                && selectedAnswer == old(selectedAnswer) && showExplanation == old(showExplanation)
      ensures FindLevel(levels, activeLevelId).Some? ==> currentLessonStep == old(currentLessonStep) + 1
      ensures FindLevel(levels, activeLevelId).Some? &&
              old(currentLessonStep) != |FindLevel(levels, activeLevelId).value.lessons| - 1 ==>
                && currentQuizQuestions == old(currentQuizQuestions)
                && currentQuestionIndex == old(currentQuestionIndex) && quizScore == old(quizScore)
                && selectedAnswer == old(selectedAnswer) && showExplanation == old(showExplanation)
      ensures FindLevel(levels, activeLevelId).Some? &&
              old(currentLessonStep) == |FindLevel(levels, activeLevelId).value.lessons| - 1 ==>
                var level := FindLevel(levels, activeLevelId).value;
                && currentQuizQuestions == MergeQuestions(level.quiz, generate(LessonContext(level.lessons)))
                && currentQuestionIndex == 0 && quizScore == 0
                && selectedAnswer == None && !showExplanation
    {
      var found := FindLevel(levels, activeLevelId);
      if found.None? {
        return;
      }
      var level := found.value;
      if currentLessonStep == |level.lessons| - 1 {
        currentLessonStep := currentLessonStep + 1;
        var questions := level.quiz;
        var challengeQuestions := generate(LessonContext(level.lessons));
        if |challengeQuestions| > 0 {
          questions := questions + challengeQuestions;
        }
        currentQuizQuestions := questions;
        currentQuestionIndex := 0;
        quizScore := 0;
        selectedAnswer := None;
        showExplanation := false;
      } else {
        currentLessonStep := currentLessonStep + 1;
      }
    }

    /**
     * `handleAnswerSelect`: the first answer to a question is final; it is
     * recorded, the explanation shown, and a correct answer scores one point.
     */
    method AnswerSelect(index: int)
      requires Valid() && currentQuestionIndex < |currentQuizQuestions|
      modifies this`selectedAnswer, this`showExplanation, this`quizScore
      ensures Valid()
      ensures old(showExplanation) ==>
                selectedAnswer == old(selectedAnswer) && showExplanation && quizScore == old(quizScore)
      ensures !old(showExplanation) ==>
                && selectedAnswer == Some(index) && showExplanation
                && quizScore == old(quizScore) +
                     (if index == currentQuizQuestions[currentQuestionIndex].correctAnswerIndex then 1 else 0)
      ensures quizScore <= currentQuestionIndex + 1 <= |currentQuizQuestions|
    {
      if showExplanation {
        return;
      }
      selectedAnswer := Some(index);
      showExplanation := true;
      if index == currentQuizQuestions[currentQuestionIndex].correctAnswerIndex {
        quizScore := quizScore + 1;
      }
    }

    /**
     * `completeLevel`: credit the active level (once per id), close it, and
     * raise the certificate when it is the catalogue's last level. Nothing
     * happens when the active id names no level.
     */
    method CompleteLevel()
      requires Valid() && |currentQuizQuestions| > 0
      modifies this`user, this`activeLevelId, this`showCertificate
      ensures Valid()
      ensures user == CompletedUser(levels, old(activeLevelId), old(user), quizScore, |currentQuizQuestions|)
      ensures user.xp >= old(user.xp) && user.score >= old(user.score)
      ensures forall k :: k in old(user.completedLevelIds) ==> k in user.completedLevelIds
      ensures FindLevel(levels, old(activeLevelId)).None? ==>
                activeLevelId == old(activeLevelId) && showCertificate == old(showCertificate)
      ensures FindLevel(levels, old(activeLevelId)).Some? ==>
                && activeLevelId == None
                && FindLevel(levels, old(activeLevelId)).value.id in user.completedLevelIds
                && showCertificate == (old(showCertificate) || FindLevel(levels, old(activeLevelId)).value.id == |levels|)
    {
      var found := FindLevel(levels, activeLevelId);
      if found.None? {
        return;
      }
      var level := found.value;
      var n := |currentQuizQuestions|;
      var xpEarned := RoundedShare(level.xpReward, quizScore, n);
      var scoreEarned := RoundedShare(ScorePerQuiz, quizScore, n);
      FindLevelNumbered(levels, 1, level.id);
      CreditMonotone(user, level.id, xpEarned, scoreEarned);
      user := Credit(user, level.id, xpEarned, scoreEarned);
      activeLevelId := None;
      if level.id == |levels| {
        showCertificate := true;
      }
    }

    /**
     * `handleNextQuestion`: move to the next question with a cleared
     * selection while one remains; on the last question complete the level.
     */
    method NextQuestion()
      requires Valid() && |currentQuizQuestions| > 0
      modifies this`currentQuestionIndex, this`selectedAnswer, this`showExplanation
      modifies this`user, this`activeLevelId, this`showCertificate
      ensures Valid()
      ensures currentQuestionIndex < |currentQuizQuestions|
      ensures old(currentQuestionIndex) < |currentQuizQuestions| - 1 ==>
                && currentQuestionIndex == old(currentQuestionIndex) + 1
                && selectedAnswer == None && !showExplanation
                && user == old(user) && activeLevelId == old(activeLevelId)
                && showCertificate == old(showCertificate)
      ensures old(currentQuestionIndex) >= |currentQuizQuestions| - 1 ==>
                && currentQuestionIndex == old(currentQuestionIndex)
                && selectedAnswer == old(selectedAnswer) && showExplanation == old(showExplanation)
                && user == CompletedUser(levels, old(activeLevelId), old(user), quizScore, |currentQuizQuestions|)
                && activeLevelId == (if FindLevel(levels, old(activeLevelId)).Some? then None else old(activeLevelId))
                && showCertificate == (old(showCertificate) ||
                     (FindLevel(levels, old(activeLevelId)).Some? && FindLevel(levels, old(activeLevelId)).value.id == |levels|))
    {
      if currentQuestionIndex < |currentQuizQuestions| - 1 {
        currentQuestionIndex := currentQuestionIndex + 1;
        selectedAnswer := None;
        showExplanation := false;
      } else {
        CompleteLevel();
      }
    }

    /** The one-second timer: count a second only while the page is visible. */
    method Tick(visible: bool)
      requires Valid()
      modifies this`user
      ensures Valid()
      ensures user == if visible then old(user).(totalTimeSeconds := old(user.totalTimeSeconds) + 1) else old(user)
    {
      if visible {
        user := user.(totalTimeSeconds := user.totalTimeSeconds + 1);
      }
    }

    /** `toggleMusic`. */
    method ToggleMusic()
      requires Valid()
      modifies this`isPlaying
      ensures Valid()
      ensures isPlaying == !old(isPlaying)
    {
      isPlaying := !isPlaying;
    }

    /** `nextTrack`: the following track, wrapping after the last, and playing. */
    method NextTrack()
      requires Valid()
      modifies this`currentTrackIndex, this`isPlaying
      ensures Valid()
      ensures currentTrackIndex == (old(currentTrackIndex) + 1) % playlistLength
      ensures currentTrackIndex < playlistLength
      ensures isPlaying
    {
      currentTrackIndex := (currentTrackIndex + 1) % playlistLength;
      isPlaying := true;
    }

    /** Closing the level modal leaves the level and rewinds the lesson cursor. */
    method CloseLevel()
      requires Valid()
      modifies this`activeLevelId, this`currentLessonStep
      ensures Valid()
      ensures activeLevelId == None && currentLessonStep == 0
    {
      activeLevelId := None;
      currentLessonStep := 0;
    }

    /** Closing the certificate modal. */
    method CloseCertificate()
      requires Valid()
      modifies this`showCertificate
      ensures Valid()
      ensures !showCertificate
    {
      showCertificate := false;
    }
  }
}
