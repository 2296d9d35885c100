/** The health quiz (`components/MiniGame.tsx`): a session draws at most 20
    questions from the pool, scores one answer per question, and on a final
    score of 20 asks the store for a collectible card, which is then revealed
    in two steps. The 1200 ms and 1500 ms display timers are explicit
    transitions (`Advance`, `FinishReveal`). */
module MiniGame {
  import opened Common
  import opened Types
  import JsString

  const MaxQuestions: nat := 20
  const CardThreshold: nat := 20
  const ExpPerCorrect: nat := 10

  datatype RevealStage = Idle | Shaking | Revealed

  /** What the card-award call resolved with; a thrown call is `Err`. The
      store defines no card-award call, so as written every call throws. */
  datatype AwardReply = AwardReply(success: bool, card: Card)

  /** `parseInt(question.answer)`; `None` is `NaN`. */
  function AnswerKey(q: QuizQuestion): Option<int> {
    JsString.ParseInt(q.answer)
  }

  /** The answer is right when the picked option index equals
      `parseInt(question.answer)`; a `NaN` answer matches nothing. */
  predicate IsCorrect(q: QuizQuestion, pick: int) {
    AnswerKey(q) == Some(pick)
  }

  /** Number of `true` entries. */
  function CountTrue(bs: seq<bool>): nat
  {
    if bs == [] then 0 else CountTrue(bs[..|bs| - 1]) + (if bs[|bs| - 1] then 1 else 0)
  }

  lemma {:induction false} CountTrueBounds(bs: seq<bool>)
    ensures CountTrue(bs) <= |bs|
    ensures CountTrue(bs) == |bs| <==> forall i :: 0 <= i < |bs| ==> bs[i]
  {
    if bs != [] {
      var init := bs[..|bs| - 1];
      CountTrueBounds(init);
      if CountTrue(bs) == |bs| {
        forall i | 0 <= i < |bs| ensures bs[i] {
          if i < |init| { assert bs[i] == init[i]; }
        }
      }
    }
  }

  /** Right or wrong, question by question, for the answered prefix. */
  function Grades(qs: seq<QuizQuestion>, picks: seq<int>): (g: seq<bool>)
    requires |picks| <= |qs|
    ensures |g| == |picks|
    ensures forall i :: 0 <= i < |picks| ==> g[i] == IsCorrect(qs[i], picks[i])
  {
    seq(|picks|, i requires 0 <= i < |picks| => IsCorrect(qs[i], picks[i]))
  }

  /** Number of right answers among the first `|picks|` questions. */
  function Score(qs: seq<QuizQuestion>, picks: seq<int>): nat
    requires |picks| <= |qs|
  {
    CountTrue(Grades(qs, picks))
  }

  predicate AllCorrect(qs: seq<QuizQuestion>, picks: seq<int>)
    requires |picks| <= |qs|
  {
    forall i :: 0 <= i < |picks| ==> IsCorrect(qs[i], picks[i])
  }

  /** The score never exceeds the number of answered questions, and reaches
      it exactly when every answer was right. */
  lemma ScoreBounds(qs: seq<QuizQuestion>, picks: seq<int>)
    requires |picks| <= |qs|
    ensures Score(qs, picks) <= |picks|
    ensures Score(qs, picks) == |picks| <==> AllCorrect(qs, picks)
  {
    CountTrueBounds(Grades(qs, picks));
  }

  /** Answering one more question adds one to the score iff it is right. */
  lemma ScoreStep(qs: seq<QuizQuestion>, picks: seq<int>, pick: int)
    requires |picks| < |qs|
    ensures Score(qs, picks + [pick]) == Score(qs, picks) + (if IsCorrect(qs[|picks|], pick) then 1 else 0)
  {
    var g := Grades(qs, picks + [pick]);
    assert g[..|g| - 1] == Grades(qs, picks);
  }

  /** A score of 20 is only reachable on a 20-question session answered
      completely and entirely correctly; in particular never when the pool
      held fewer than 20 questions. */
  lemma CardNeedsPerfectTwenty(qs: seq<QuizQuestion>, picks: seq<int>)
    requires |picks| <= |qs| <= MaxQuestions
    ensures Score(qs, picks) >= CardThreshold <==>
            |qs| == MaxQuestions && |picks| == MaxQuestions && AllCorrect(qs, picks)
  {
    ScoreBounds(qs, picks);
  }

  /** Experience shown on the result screen and passed to `onEnd`. */
  function ExpReward(correct: nat): (exp: nat)
    ensures exp % ExpPerCorrect == 0 && exp / ExpPerCorrect == correct
  {
    correct * ExpPerCorrect
  }

  /** Coins shown on the result screen: `Math.floor(correct / 2)`. */
  function CoinReward(correct: nat): (coins: nat)
    ensures 2 * coins <= correct < 2 * coins + 2
  {
    correct / 2
  }

  /** A finished session of at most 20 questions is worth at most 200
      experience and 10 coins; a perfect 20 is worth exactly that. */
  lemma SessionRewardBounds(qs: seq<QuizQuestion>, picks: seq<int>)
    requires |picks| <= |qs| <= MaxQuestions
    ensures ExpReward(Score(qs, picks)) <= 200 && CoinReward(Score(qs, picks)) <= 10
    ensures Score(qs, picks) == CardThreshold ==>
            ExpReward(Score(qs, picks)) == 200 && CoinReward(Score(qs, picks)) == 10
  {
    ScoreBounds(qs, picks);
  }

  class HealthQuiz {
    var isPlaying: bool
    var currentIdx: nat
    var selectedIdx: Option<int>
    var isAnswered: bool
    var correctCount: nat
    var quizSet: seq<QuizQuestion>
    var showResult: bool
    var awardedCard: Option<Card>
    var revealStage: RevealStage
    /** The option picked for each question answered so far. */
    ghost var picks: seq<int>

    ghost predicate Valid()
      reads this
    {
      |quizSet| <= MaxQuestions
      && (isPlaying ==> currentIdx < |quizSet|)
      && (!isPlaying ==> quizSet == [] && !showResult)
      && |picks| == currentIdx + (if isAnswered then 1 else 0)
      && |picks| <= |quizSet|
      && correctCount == Score(quizSet, picks)
      && (isAnswered <==> selectedIdx.Some?)
      && (isAnswered ==> selectedIdx == Some(picks[currentIdx]))
      && (showResult ==> isAnswered && currentIdx == |quizSet| - 1)
      && (awardedCard.Some? ==> showResult && correctCount >= CardThreshold)
      && (revealStage != Idle ==> awardedCard.Some?)
    }

    constructor ()
      ensures Valid() && !isPlaying && quizSet == [] && picks == [] && correctCount == 0
      ensures !isAnswered && !showResult && awardedCard == None && revealStage == Idle
    {
      isPlaying, currentIdx, selectedIdx, isAnswered := false, 0, None, false;
      correctCount, quizSet, showResult := 0, [], false;
      awardedCard, revealStage := None, Idle;
      picks := [];
    }

    /** `startQuiz`, given the fetched pool and the order the random sort
        put it in. An empty pool changes nothing; otherwise the first
        min(|pool|, 20) shuffled questions become the session and every
        counter is reset. */
    method StartQuiz(pool: seq<QuizQuestion>, shuffled: seq<QuizQuestion>)
      requires Valid()
      requires |shuffled| == |pool| && multiset(shuffled) == multiset(pool)
      modifies this
      ensures Valid()
      ensures pool == [] ==>
        isPlaying == old(isPlaying) && quizSet == old(quizSet) && currentIdx == old(currentIdx)
        && correctCount == old(correctCount) && selectedIdx == old(selectedIdx)
        && isAnswered == old(isAnswered) && showResult == old(showResult)
        && awardedCard == old(awardedCard) && revealStage == old(revealStage) && picks == old(picks)
      ensures pool != [] ==>
        isPlaying && quizSet == shuffled[..Min(|pool|, MaxQuestions)]
        && currentIdx == 0 && correctCount == 0 && selectedIdx == None && !isAnswered
        && !showResult && awardedCard == None && revealStage == Idle && picks == []
      ensures |quizSet| == (if pool == [] then old(|quizSet|) else Min(|pool|, MaxQuestions))
      ensures pool != [] ==> multiset(quizSet) <= multiset(pool)
    {
      if |pool| == 0 {
        return;
      }
      var n := Min(|pool|, MaxQuestions);
      assert shuffled == shuffled[..n] + shuffled[n..];
      quizSet, currentIdx, correctCount, selectedIdx, isAnswered := shuffled[..n], 0, 0, None, false;
      isPlaying, showResult, awardedCard, revealStage := true, false, None, Idle;
      picks := [];
    }

    /** `handleAnswer(idx)`: nothing happens once the current question is
        answered; otherwise the pick is recorded and the score rises by one
        exactly when it is right. */
    method Answer(idx: int)
      requires Valid() && isPlaying
      modifies this
      ensures Valid()
      ensures old(isAnswered) ==>
        selectedIdx == old(selectedIdx) && isAnswered && correctCount == old(correctCount)
        && picks == old(picks)
      ensures !old(isAnswered) ==>
        selectedIdx == Some(idx) && isAnswered && picks == old(picks) + [idx]
        && correctCount == old(correctCount) + (if IsCorrect(quizSet[currentIdx], idx) then 1 else 0)
      ensures isPlaying && quizSet == old(quizSet) && currentIdx == old(currentIdx)
      ensures showResult == old(showResult) && awardedCard == old(awardedCard)
      ensures revealStage == old(revealStage)
      ensures correctCount <= |picks| <= |quizSet|
    {
      if isAnswered {
        ScoreBounds(quizSet, picks);
        return;
      }
      var correctAns := AnswerKey(quizSet[currentIdx]);
      var isCorrect := correctAns == Some(idx);
      ScoreStep(quizSet, picks, idx);
      ScoreBounds(quizSet, picks + [idx]);
      selectedIdx, isAnswered := Some(idx), true;
      correctCount, picks := correctCount + (if isCorrect then 1 else 0), picks + [idx];
    }

    /** The 1200 ms timer armed by an answer. Before the last question it
        moves on and clears the selection; on the last one it shows the
        result and, iff the final score is at least 20, asks for a card,
        which is kept only when the award call reports success. */
    method Advance(award: Result<AwardReply, string>) returns (cardRequested: bool)
      requires Valid() && isPlaying && isAnswered && !showResult
      modifies this
      ensures Valid()
      ensures quizSet == old(quizSet) && correctCount == old(correctCount) && isPlaying
      ensures revealStage == old(revealStage)
      ensures old(currentIdx) < |quizSet| - 1 ==>
        currentIdx == old(currentIdx) + 1 && selectedIdx == None && !isAnswered
        && !showResult && !cardRequested && picks == old(picks) && awardedCard == old(awardedCard)
      ensures old(currentIdx) == |quizSet| - 1 ==>
        currentIdx == old(currentIdx) && showResult && isAnswered && picks == old(picks)
        && selectedIdx == old(selectedIdx)
        && (cardRequested <==> correctCount >= CardThreshold)
        && awardedCard == (if cardRequested && award.Ok? && award.value.success
                           then Some(award.value.card) else None)
      ensures cardRequested <==>
        |picks| == |quizSet| == MaxQuestions && AllCorrect(quizSet, picks)
    {
      ScoreBounds(quizSet, picks);
      if currentIdx < |quizSet| - 1 {
        currentIdx := currentIdx + 1;
        selectedIdx := None;
        isAnswered := false;
        cardRequested := false;
      } else {
        var finalScore := correctCount;
        showResult := true;
        cardRequested := finalScore >= CardThreshold;
        if cardRequested {
          CardNeedsPerfectTwenty(quizSet, picks);
          if award.Ok? && award.value.success {
            awardedCard := Some(award.value.card);
          }
        } else {
          CardNeedsPerfectTwenty(quizSet, picks);
        }
      }
    }

    /** `triggerReveal`, offered only while an awarded card is unopened. */
    method TriggerReveal()
      requires Valid() && awardedCard.Some? && revealStage == Idle
      modifies this`revealStage
      ensures Valid() && revealStage == Shaking
    {
      revealStage := Shaking;
    }

    /** The 1500 ms timer armed by `triggerReveal`. */
    method FinishReveal()
      requires Valid() && revealStage == Shaking
      modifies this`revealStage
      ensures Valid() && revealStage == Revealed
    {
      revealStage := Revealed;
    }

    /** The experience the result screen shows and hands to `onEnd`. */
    function Experience(): (exp: nat)
      reads this
      requires Valid()
      ensures exp <= ExpPerCorrect * |quizSet| <= 200
    {
      ScoreBounds(quizSet, picks);
      ExpReward(correctCount)
    }
  }
}
