/**
 * Judging a round, by the AI judge or by a user, and deciding the battle
 * winner. `random.choice` is a nondeterministic choice between the two names.
 */
module Judgment {
  import opened Wrappers
  import opened Models
  import opened BattleRepo
  import opened RoundManagement
  import opened JudgeAgent

  const FallbackFeedback: string := "Winner determined by random selection due to AI judgment failure."

  predicate IsContestant(b: Battle, name: string) {
    name == b.rapper1Name || name == b.rapper2Name
  }

  /** `_fallback_judgment`: either contestant, with the fixed explanation. */
  method FallbackJudgment(b: Battle) returns (winner: string, feedback: string)
    ensures IsContestant(b, winner)
    ensures feedback == FallbackFeedback
  {
    var first: bool :| true;
    winner := if first then b.rapper1Name else b.rapper2Name;
    feedback := FallbackFeedback;
  }

  /**
   * `judge_round_ai`: the judge's verdict when the round has both verses and
   * the judge names a contestant; otherwise the random fallback.
   */
  method JudgeRoundAi(b: Battle, round: Round, reply: Option<string>) returns (winner: string, feedback: string)
    ensures IsContestant(b, winner)
    ensures round.rapper1Verse.None? || round.rapper2Verse.None? ==> feedback == FallbackFeedback
    ensures round.rapper1Verse.Some? && round.rapper2Verse.Some? ==>
      var verdict := JudgeRound(reply, b.rapper1Name, b.rapper2Name);
      if IsContestant(b, verdict.0) then (winner, feedback) == verdict else feedback == FallbackFeedback
  {
    if round.rapper1Verse.None? || round.rapper2Verse.None? {
      winner, feedback := FallbackJudgment(b);
      return;
    }
    var verdict := JudgeRound(reply, b.rapper1Name, b.rapper2Name);
    if !IsContestant(b, verdict.0) {
      winner, feedback := FallbackJudgment(b);
      return;
    }
    winner, feedback := verdict.0, verdict.1;
  }

  /** A reply from the judge always settles the round, since extraction only yields contestants. */
  lemma ReplyIsUsed(b: Battle, reply: string)
    ensures IsContestant(b, JudgeRound(Some(reply), b.rapper1Name, b.rapper2Name).0)
  {
  }

  /**
   * A failed judge call falls back to random choice, unless a contestant is
   * literally named "Error": then the error pair passes the name check.
   */
  lemma FailedCallFallsBack(b: Battle)
    ensures var verdict := JudgeRound(None, b.rapper1Name, b.rapper2Name);
      IsContestant(b, verdict.0) <==> (b.rapper1Name == ErrorWinner || b.rapper2Name == ErrorWinner)
  {
  }

  /** The round and counters after a verdict, before the battle winner is decided. */
  function ApplyJudgment(b: Battle, i: nat, winner: string, byUser: bool, feedback: Option<string>): (nb: Battle)
    requires i < |b.rounds|
    ensures |nb.rounds| == |b.rounds|
    ensures nb.rounds[i].winner == Some(winner) && nb.rounds[i].status == Completed
    ensures nb.rounds[i].userJudgment == Some(byUser)
    ensures nb.rounds[i].judgeFeedback == if feedback.Some? then feedback else b.rounds[i].judgeFeedback
    ensures nb.rounds[i] == b.rounds[i].(winner := nb.rounds[i].winner, status := Completed,
      userJudgment := nb.rounds[i].userJudgment, judgeFeedback := nb.rounds[i].judgeFeedback)
    ensures forall j :: 0 <= j < |b.rounds| && j != i ==> nb.rounds[j] == b.rounds[j]
    ensures winner == b.rapper1Name ==> nb.rapper1Wins == b.rapper1Wins + 1 && nb.rapper2Wins == b.rapper2Wins
    ensures winner != b.rapper1Name ==> nb.rapper2Wins == b.rapper2Wins + 1 && nb.rapper1Wins == b.rapper1Wins
    ensures nb == b.(rounds := nb.rounds, rapper1Wins := nb.rapper1Wins, rapper2Wins := nb.rapper2Wins)
  {
    var old_ := b.rounds[i];
    var round := old_.(winner := Some(winner), status := Completed, userJudgment := Some(byUser),
      judgeFeedback := if feedback.Some? then feedback else old_.judgeFeedback);
    var counted :=
      if winner == b.rapper1Name then b.(rapper1Wins := b.rapper1Wins + 1)
      else b.(rapper2Wins := b.rapper2Wins + 1);
    counted.(rounds := b.rounds[i := round])
  }

  /** Each verdict adds exactly one win in total, and completes at most one more round. */
  lemma {:induction false} ApplyJudgmentCounts(b: Battle, i: nat, winner: string, byUser: bool, feedback: Option<string>)
    requires i < |b.rounds|
    ensures var nb := ApplyJudgment(b, i, winner, byUser, feedback);
      && nb.rapper1Wins + nb.rapper2Wins == b.rapper1Wins + b.rapper2Wins + 1
      && CompletedCount(nb.rounds) == CompletedCount(b.rounds) + (if b.rounds[i].status == Completed then 0 else 1)
  {
    var nb := ApplyJudgment(b, i, winner, byUser, feedback);
    assert nb.rounds == b.rounds[i := nb.rounds[i]];
    CompletedCountComplete(b.rounds, i, nb.rounds[i]);
  }

  /** The verdicts `determine_battle_winner` may return; two when an exact tie is broken at random. */
  function WinnerOutcomes(b: Battle): set<Option<string>>
  {
    if b.rapper1Wins >= 2 then {Some(b.rapper1Name)}
    else if b.rapper2Wins >= 2 then {Some(b.rapper2Name)}
    else if CompletedCount(b.rounds) >= 3 then
      if b.rapper1Wins > b.rapper2Wins then {Some(b.rapper1Name)}
      else if b.rapper2Wins > b.rapper1Wins then {Some(b.rapper2Name)}
      else {Some(b.rapper1Name), Some(b.rapper2Name)}
    else {None}
  }

  /** `determine_battle_winner` */
  method DetermineBattleWinner(b: Battle) returns (w: Option<string>)
    ensures w in WinnerOutcomes(b)
  {
    if b.rapper1Wins >= 2 {
      return Some(b.rapper1Name);
    } else if b.rapper2Wins >= 2 {
      return Some(b.rapper2Name);
    }
    if CompletedCount(b.rounds) >= 3 {
      if b.rapper1Wins > b.rapper2Wins {
        return Some(b.rapper1Name);
      } else if b.rapper2Wins > b.rapper1Wins {
        return Some(b.rapper2Name);
      }
      var first: bool :| true;
      return if first then Some(b.rapper1Name) else Some(b.rapper2Name);
    }
    return None;
  }

  /** A battle winner is decided exactly when the battle is complete, and is always a contestant. */
  lemma WinnerIffComplete(b: Battle)
    ensures WinnerOutcomes(b) != {}
    ensures IsBattleComplete(b) <==> None !in WinnerOutcomes(b)
    ensures !IsBattleComplete(b) <==> WinnerOutcomes(b) == {None}
    ensures forall w :: w in WinnerOutcomes(b) && w.Some? ==> IsContestant(b, w.value)
  {
  }

  /**
   * While each of the three rounds is judged at most once (at most three wins
   * in total), the battle winner never has fewer round wins than the loser.
   */
  lemma WinnerNotBehind(b: Battle)
    requires b.rapper1Name != b.rapper2Name
    requires b.rapper1Wins + b.rapper2Wins <= 3
    ensures forall w :: w in WinnerOutcomes(b) && w == Some(b.rapper1Name) ==> b.rapper1Wins >= b.rapper2Wins
    ensures forall w :: w in WinnerOutcomes(b) && w == Some(b.rapper2Name) ==> b.rapper2Wins >= b.rapper1Wins
  {
  }

  /**
   * Judging again is accepted, and rapper1 is checked first: after rapper1's
   * two wins and three for rapper2, rapper1 is still declared the winner.
   */
  lemma WinnerCanTrailAfterRejudging(b: Battle)
    requires b.rapper1Name != b.rapper2Name
    requires b.rapper1Wins == 2 && b.rapper2Wins == 3
    ensures WinnerOutcomes(b) == {Some(b.rapper1Name)}
  {
  }

  /** Setting the battle winner when `determine_battle_winner` returns a non-empty name. */
  function Settle(b: Battle, w: Option<string>): (nb: Battle)
    ensures w.Some? && w.value != "" ==> nb == b.(winner := w, status := Completed)
    ensures w.None? || w.value == "" ==> nb == b
  {
    if w.Some? && w.value != "" then b.(winner := w, status := Completed) else b
  }

  /** `nb` is `b` after a verdict on round `i` followed by one possible winner decision. */
  ghost predicate JudgedAs(b: Battle, i: nat, winner: string, byUser: bool, feedback: Option<string>, nb: Battle)
  {
    i < |b.rounds|
    && var mid := ApplyJudgment(b, i, winner, byUser, feedback);
       exists w :: w in WinnerOutcomes(mid) && nb == Settle(mid, w)
  }

  /** `nb` is `b` after some verdict on round `i` and the winner decision. */
  ghost predicate Judged(b: Battle, i: nat, nb: Battle)
  {
    exists winner, byUser, feedback :: JudgedAs(b, i, winner, byUser, feedback, nb)
  }

  /** `if user_judgment.feedback:` holds for a present, non-empty text. */
  function UserFeedback(j: JudgmentCreate): (r: Option<string>)
    ensures r.Some? <==> j.feedback.Some? && j.feedback.value != ""
    ensures r.Some? ==> r == j.feedback
  {
    if j.feedback.Some? && j.feedback.value != "" then j.feedback else None
  }

  /**
   * `judge_round_and_update_battle`, with the feedback written to the
   * declared `judge_feedback` field.
   */
  method JudgeRoundAndUpdateBattle(repo: InMemoryBattleRepository, battleId: Id, roundId: Id, useAi: bool,
                                   userJudgment: Option<JudgmentCreate>, reply: Option<string>)
    returns (r: Result<Battle, BattleError>)
    requires repo.Valid()
    modifies repo
    ensures repo.Valid() && repo.order == old(repo.order)
    ensures r.Err? ==> repo.battles == old(repo.battles)
    ensures r.Ok? ==>
      && battleId in old(repo.battles) && FindRound(old(repo.battles)[battleId].rounds, roundId).Some?
      && repo.battles == old(repo.battles)[battleId := r.value]
      && Judged(old(repo.battles)[battleId], FindRound(old(repo.battles)[battleId].rounds, roundId).value, r.value)
    ensures battleId !in old(repo.battles) ==> r == Err(BattleNotFound(battleId)) && repo.battles == old(repo.battles)
    ensures battleId in old(repo.battles) ==>
      var b := old(repo.battles)[battleId];
      match FindRound(b.rounds, roundId)
      case None => r == Err(RoundNotFound(roundId)) && repo.battles == old(repo.battles)
      case Some(i) =>
        if !useAi && userJudgment.None? then
          r == Err(UserJudgmentRequired) && repo.battles == old(repo.battles)
        else
          && r.Ok?
          && repo.battles == old(repo.battles)[battleId := r.value]
          && (useAi ==> exists winner, feedback :: IsContestant(b, winner) && JudgedAs(b, i, winner, false, Some(feedback), r.value))
          && (useAi && b.rounds[i].rapper1Verse.Some? && b.rounds[i].rapper2Verse.Some? && reply.Some? ==>
                JudgedAs(b, i, ExtractWinner(reply.value, b.rapper1Name, b.rapper2Name).0, false, reply, r.value))
          && (!useAi ==> JudgedAs(b, i, userJudgment.value.winner, true, UserFeedback(userJudgment.value), r.value))
  {
    var found := repo.GetBattle(battleId);
    if found.None? {
      return Err(BattleNotFound(battleId));
    }
    var b := found.value;
    var idx := FindRound(b.rounds, roundId);
    if idx.None? {
      return Err(RoundNotFound(roundId));
    }
    var i := idx.value;
    var winner: string;
    var feedback: Option<string>;
    if useAi {
      var text;
      winner, text := JudgeRoundAi(b, b.rounds[i], reply);
      feedback := Some(text);
    } else {
      if userJudgment.None? {
        return Err(UserJudgmentRequired);
      }
      winner := userJudgment.value.winner;
      feedback := UserFeedback(userJudgment.value);
    }
    var mid := ApplyJudgment(b, i, winner, !useAi, feedback);
    var w := DetermineBattleWinner(mid);
    var nb := Settle(mid, w);
    assert JudgedAs(b, i, winner, !useAi, feedback, nb);
    r := repo.UpdateBattle(nb);
  }

  /**
   * `judge_round_and_update_battle` as written: it assigns `feedback`, which
   * `Round` does not declare, so pydantic raises right after `user_judgment`
   * has been set on the stored round. The AI path always fails this way, and
   * the user path does whenever feedback text is given.
   */
  method JudgeRoundAndUpdateBattleAsWritten(repo: InMemoryBattleRepository, battleId: Id, roundId: Id, useAi: bool,
                                            userJudgment: Option<JudgmentCreate>, reply: Option<string>)
    returns (r: Result<Battle, BattleError>)
    requires repo.Valid()
    modifies repo
    ensures repo.Valid() && repo.order == old(repo.order)
    ensures battleId !in old(repo.battles) ==> r == Err(BattleNotFound(battleId)) && repo.battles == old(repo.battles)
    ensures battleId in old(repo.battles) ==>
      var b := old(repo.battles)[battleId];
      match FindRound(b.rounds, roundId)
      case None => r == Err(RoundNotFound(roundId)) && repo.battles == old(repo.battles)
      case Some(i) =>
        if useAi then
          && r == Err(NoSuchField("feedback"))
          && repo.battles == old(repo.battles)[battleId := b.(rounds := b.rounds[i := b.rounds[i].(userJudgment := Some(false))])]
        else if userJudgment.None? then
          r == Err(UserJudgmentRequired) && repo.battles == old(repo.battles)
        else if UserFeedback(userJudgment.value).Some? then
          && r == Err(NoSuchField("feedback"))
          && repo.battles == old(repo.battles)[battleId := b.(rounds := b.rounds[i := b.rounds[i].(userJudgment := Some(true))])]
        else
          && r.Ok?
          && repo.battles == old(repo.battles)[battleId := r.value]
          && JudgedAs(b, i, userJudgment.value.winner, true, None, r.value)
  {
    var found := repo.GetBattle(battleId);
    if found.None? {
      return Err(BattleNotFound(battleId));
    }
    var b := found.value;
    var idx := FindRound(b.rounds, roundId);
    if idx.None? {
      return Err(RoundNotFound(roundId));
    }
    var i := idx.value;
    var winner: string;
    if useAi {
      var text;
      winner, text := JudgeRoundAi(b, b.rounds[i], reply);
      repo.battles := repo.battles[battleId := b.(rounds := b.rounds[i := b.rounds[i].(userJudgment := Some(false))])];
      return Err(NoSuchField("feedback"));
    }
    if userJudgment.None? {
      return Err(UserJudgmentRequired);
    }
    winner := userJudgment.value.winner;
    if UserFeedback(userJudgment.value).Some? {
      repo.battles := repo.battles[battleId := b.(rounds := b.rounds[i := b.rounds[i].(userJudgment := Some(true))])];
      return Err(NoSuchField("feedback"));
    }
    var mid := ApplyJudgment(b, i, winner, true, None);
    var w := DetermineBattleWinner(mid);
    var nb := Settle(mid, w);
    r := repo.UpdateBattle(nb);
  }
}
