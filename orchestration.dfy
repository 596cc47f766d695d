/**
 * Sequencing a battle: generating rounds with verses, judging them and
 * moving on to the next round. The verse generator is an oracle from the
 * round number and the earlier verses to its result; the AI judge's reply is
 * an oracle value.
 */
module Orchestration {
  import opened Wrappers
  import opened Models
  import opened BattleRepo
  import opened BattleCrud
  import opened RoundManagement
  import opened VerseGeneration
  import opened Judgment
  import opened JudgeAgent

  /** What the parallel verse workflow returns for a round number and the context verses. */
  type VerseOracle = (int, seq<NamedVerse>) -> Option<seq<NamedVerse>>

  /**
   * The shape every battle keeps once its first round exists: rounds 1, 2, ...
   * in order, at most three, the current round is the last one, round ids are
   * unique, a winner is set exactly when the status is completed, and every
   * completed round was won by someone.
   */
  predicate Coherent(b: Battle) {
    && 1 <= |b.rounds| <= 3
    && (forall i :: 0 <= i < |b.rounds| ==> b.rounds[i].roundNumber == i + 1 && b.rounds[i].battleId == b.id)
    && b.currentRound == |b.rounds|
    && (forall i, j :: 0 <= i < j < |b.rounds| ==> b.rounds[i].id != b.rounds[j].id)
    && (b.status == Completed <==> b.winner.Some?)
    && CompletedCount(b.rounds) <= b.rapper1Wins + b.rapper2Wins
  }

  /** `nb` is `b` with round `n` appended and filled with verses for that round and made current. */
  ghost predicate GeneratedRound(b: Battle, n: RoundNumber, gen: VerseOracle, nb: Battle)
  {
    && |nb.rounds| == |b.rounds| + 1
    && nb.rounds[..|b.rounds|] == b.rounds
    && nb == b.(rounds := nb.rounds, currentRound := n)
    && var last := nb.rounds[|b.rounds|];
       && last.id !in RoundIds(b.rounds)
       && last.rapper1Verse.Some? && last.rapper2Verse.Some?
       && last == NewRound(last.id, b.id, n).(rapper1Verse := last.rapper1Verse, rapper2Verse := last.rapper2Verse)
       && last.rapper1Verse.value.roundId == last.id && last.rapper1Verse.value.rapperName == b.rapper1Name
       && last.rapper2Verse.value.roundId == last.id && last.rapper2Verse.value.rapperName == b.rapper2Name
       && ChosenContents(b.rapper1Name, b.rapper2Name, gen(n, PreviousVerses(b.rounds, b.rapper1Name, b.rapper2Name, n)),
            last.rapper1Verse.value.content, last.rapper2Verse.value.content)
  }

  /** Generating a round judges nothing: wins, completed rounds and the outcome stay as they were. */
  lemma {:induction false} GeneratedRoundKeepsOutcome(b: Battle, n: RoundNumber, gen: VerseOracle, nb: Battle)
    requires GeneratedRound(b, n, gen, nb)
    ensures CompletedCount(nb.rounds) == CompletedCount(b.rounds)
    ensures IsBattleComplete(nb) == IsBattleComplete(b)
    ensures WinnerOutcomes(nb) == WinnerOutcomes(b)
  {
    assert nb.rounds == b.rounds + [nb.rounds[|b.rounds|]];
    CompletedCountAppend(b.rounds, nb.rounds[|b.rounds|]);
  }

  /**
   * Appending round `|rounds| + 1` keeps a battle coherent; so does the
   * first round of a battle that has none yet.
   */
  lemma {:induction false} GeneratedRoundCoherent(b: Battle, n: RoundNumber, gen: VerseOracle, nb: Battle)
    requires GeneratedRound(b, n, gen, nb)
    requires n == |b.rounds| + 1
    requires Coherent(b) || (b.rounds == [] && b.winner.None? && b.status == InProgress)
    ensures Coherent(nb)
  {
    GeneratedRoundKeepsOutcome(b, n, gen, nb);
    var last := nb.rounds[|b.rounds|];
    assert nb.rounds == b.rounds + [last];
    AppendedRoundCoherent(b, last, nb);
  }

  /** The structural half of `GeneratedRoundCoherent`: a fresh round numbered next, appended and made current. */
  lemma AppendedRoundCoherent(b: Battle, last: Round, nb: Battle)
    requires Coherent(b) || (b.rounds == [] && b.winner.None? && b.status == InProgress)
    requires |b.rounds| < 3 && nb.rounds == b.rounds + [last]
    requires nb == b.(rounds := nb.rounds, currentRound := |b.rounds| + 1)
    requires last.roundNumber == |b.rounds| + 1 && last.battleId == b.id && last.id !in RoundIds(b.rounds)
    requires CompletedCount(nb.rounds) == CompletedCount(b.rounds)
    ensures Coherent(nb)
  {
    AppendedRoundShape(b.rounds, last, b.id);
  }

  /** Rounds numbered from 1 with distinct ids stay so when a fresh round numbered next is appended. */
  lemma AppendedRoundShape(rs: seq<Round>, last: Round, battleId: Id)
    requires forall i :: 0 <= i < |rs| ==> rs[i].roundNumber == i + 1 && rs[i].battleId == battleId
    requires forall i, j :: 0 <= i < j < |rs| ==> rs[i].id != rs[j].id
    requires last.roundNumber == |rs| + 1 && last.battleId == battleId && last.id !in RoundIds(rs)
    ensures var ns := rs + [last];
      && (forall i :: 0 <= i < |ns| ==> ns[i].roundNumber == i + 1 && ns[i].battleId == battleId)
      && (forall i, j :: 0 <= i < j < |ns| ==> ns[i].id != ns[j].id)
  {
    var ns := rs + [last];
    forall i, j | 0 <= i < j < |ns|
      ensures ns[i].id != ns[j].id
    {
      if j == |rs| {
        assert rs[i].id in RoundIds(rs);
      }
    }
  }

  /** A verdict followed by the winner decision keeps a battle coherent. */
  lemma {:induction false} JudgedCoherent(b: Battle, i: nat, nb: Battle)
    requires Coherent(b)
    requires Judged(b, i, nb)
    ensures Coherent(nb)
    ensures |nb.rounds| == |b.rounds| && nb.currentRound == b.currentRound
  {
    var winner, byUser, feedback :| JudgedAs(b, i, winner, byUser, feedback, nb);
    var mid := ApplyJudgment(b, i, winner, byUser, feedback);
    ApplyJudgmentCoherent(b, i, winner, byUser, feedback);
    var w :| w in WinnerOutcomes(mid) && nb == Settle(mid, w);
    SettleCoherent(mid, w);
  }

  /** Recording a verdict on one round keeps a battle coherent. */
  lemma ApplyJudgmentCoherent(b: Battle, i: nat, winner: string, byUser: bool, feedback: Option<string>)
    requires Coherent(b) && i < |b.rounds|
    ensures var mid := ApplyJudgment(b, i, winner, byUser, feedback);
      Coherent(mid) && |mid.rounds| == |b.rounds| && mid.currentRound == b.currentRound
  {
    var mid := ApplyJudgment(b, i, winner, byUser, feedback);
    ApplyJudgmentCounts(b, i, winner, byUser, feedback);
    assert forall j :: 0 <= j < |b.rounds| ==>
      mid.rounds[j].id == b.rounds[j].id && mid.rounds[j].roundNumber == b.rounds[j].roundNumber
      && mid.rounds[j].battleId == b.rounds[j].battleId;
  }

  /** Deciding the winner keeps a battle coherent. */
  lemma SettleCoherent(b: Battle, w: Option<string>)
    requires Coherent(b)
    ensures Coherent(Settle(b, w)) && Settle(b, w).rounds == b.rounds && Settle(b, w).currentRound == b.currentRound
  {
  }

  /** No verdict has been recorded anywhere in the battle. */
  predicate Unjudged(b: Battle) {
    && b.winner.None? && b.status == InProgress && b.rapper1Wins == 0 && b.rapper2Wins == 0
    && forall i :: 0 <= i < |b.rounds| ==> b.rounds[i].status == InProgress && b.rounds[i].winner.None?
  }

  lemma {:induction false} GeneratedRoundUnjudged(b: Battle, n: RoundNumber, gen: VerseOracle, nb: Battle)
    requires GeneratedRound(b, n, gen, nb)
    requires Unjudged(b)
    ensures Unjudged(nb)
  {
    forall i | 0 <= i < |b.rounds|
      ensures nb.rounds[i] == b.rounds[i]
    {
      assert nb.rounds[..|b.rounds|][i] == b.rounds[i];
    }
  }

  /** The battle `GeneratedRound` describes, built from the new round and its two verses. */
  lemma {:induction false} GeneratedRoundIntro(b: Battle, n: RoundNumber, gen: VerseOracle, round: Round, v1: Verse, v2: Verse)
    requires round == NewRound(round.id, b.id, n) && round.id !in RoundIds(b.rounds)
    requires v1.roundId == round.id && v1.rapperName == b.rapper1Name
    requires v2.roundId == round.id && v2.rapperName == b.rapper2Name
    requires ChosenContents(b.rapper1Name, b.rapper2Name, gen(n, PreviousVerses(b.rounds, b.rapper1Name, b.rapper2Name, n)),
      v1.content, v2.content)
    ensures GeneratedRound(b, n, gen,
      b.(rounds := b.rounds + [round.(rapper1Verse := Some(v1), rapper2Verse := Some(v2))], currentRound := n))
  {
    var nb := b.(rounds := b.rounds + [round.(rapper1Verse := Some(v1), rapper2Verse := Some(v2))], currentRound := n);
    assert nb.rounds[..|b.rounds|] == b.rounds;
  }

  /** Recording any name as the winner keeps a battle coherent. */
  lemma WithWinnerCoherent(b: Battle, winner: string)
    requires Coherent(b)
    ensures Coherent(WithWinner(b, winner))
  {
  }

  /** Storing twice under one key keeps only the second value. */
  lemma UpdateTwice(m: map<Id, Battle>, k: Id, x: Battle, y: Battle)
    ensures m[k := x][k := y] == m[k := y]
  {
  }

  /** Filling the verses of a freshly appended round changes only that last round. */
  lemma {:induction false} FillLastRound(b: Battle, round: Round, v1: Verse, v2: Verse)
    requires round.id !in RoundIds(b.rounds)
    ensures WithVerses(WithRound(b, round), round.id, v1, v2)
      == Some(b.(rounds := b.rounds + [round.(rapper1Verse := Some(v1), rapper2Verse := Some(v2))],
                currentRound := round.roundNumber))
  {
    FindRoundAppendFresh(b.rounds, round);
    assert (b.rounds + [round])[|b.rounds| := round.(rapper1Verse := Some(v1), rapper2Verse := Some(v2))]
      == b.rounds + [round.(rapper1Verse := Some(v1), rapper2Verse := Some(v2))];
  }

  /**
   * `_generate_battle_round`: create round `n` (range-checked), collect the
   * earlier verses, generate and store both verses, make `n` current.
   */
  method GenerateBattleRound(repo: InMemoryBattleRepository, battleId: Id, n: int, gen: VerseOracle)
    returns (err: Option<BattleError>)
    requires repo.Valid() && battleId in repo.battles
    modifies repo
    ensures repo.Valid() && repo.order == old(repo.order) && battleId in repo.battles
    ensures !(1 <= n <= 3) ==> err == Some(InvalidRoundNumber(n)) && repo.battles == old(repo.battles)
    ensures 1 <= n <= 3 ==>
      && err.None?
      && repo.battles == old(repo.battles)[battleId := repo.battles[battleId]]
      && GeneratedRound(old(repo.battles)[battleId], n, gen, repo.battles[battleId])
  {
    var b0 := repo.battles[battleId];
    var created := CreateRound(repo, battleId, n);
    if created.Err? {
      return Some(created.error);
    }
    var round := created.value;
    assert forall i :: 0 <= i < |b0.rounds| ==> b0.rounds[i].id in AllRoundIds(old(repo.battles));
    var b1 := repo.battles[battleId];
    var previous := GetPreviousVerses(b1, n);
    PreviousVersesAppendLater(b0.rounds, round, b0.rapper1Name, b0.rapper2Name, n);
    var v1, v2 := GenerateVersesForRound(b1, round, gen(n, previous));
    StoreRoundVerses(repo, battleId, b0, round, v1, v2);
    UpdateTwice(old(repo.battles), battleId, b1, repo.battles[battleId]);
    GeneratedRoundIntro(b0, n, gen, round, v1, v2);
    err := None;
  }

  /** The end of `_generate_battle_round`: store both verses in the new round and make it current. */
  method StoreRoundVerses(repo: InMemoryBattleRepository, battleId: Id, b0: Battle, round: Round, v1: Verse, v2: Verse)
    requires repo.Valid() && battleId in repo.battles && repo.battles[battleId] == WithRound(b0, round)
    requires round.id !in RoundIds(b0.rounds)
    modifies repo
    ensures repo.Valid() && repo.order == old(repo.order)
    ensures repo.battles == old(repo.battles)[battleId :=
      b0.(rounds := b0.rounds + [round.(rapper1Verse := Some(v1), rapper2Verse := Some(v2))],
          currentRound := round.roundNumber)]
  {
    FillLastRound(b0, round, v1, v2);
    var added := AddVersesToRound(repo, battleId, round.id, v1, v2);
    var b2 := repo.battles[battleId];
    repo.battles := repo.battles[battleId := b2.(currentRound := round.roundNumber)];
    UpdateTwice(old(repo.battles), battleId, b2, b2.(currentRound := round.roundNumber));
  }

  /**
   * `generate_battle_with_verses`: a new battle with exactly one round,
   * numbered 1, holding both verses.
   */
  method GenerateBattleWithVerses(repo: InMemoryBattleRepository, data: BattleCreate, gen: VerseOracle)
    returns (b: Battle)
    requires repo.Valid()
    modifies repo
    ensures repo.Valid()
    ensures b.id !in old(repo.battles) && repo.order == old(repo.order) + [b.id]
    ensures repo.battles == old(repo.battles)[b.id := b]
    ensures GeneratedRound(NewBattle(b.id, data), 1, gen, b)
    ensures Coherent(b) && |b.rounds| == 1 && b.rounds[0].roundNumber == 1
  {
    var created := BattleCrud.CreateBattle(repo, data);
    var err := GenerateBattleRound(repo, created.id, 1, gen);
    b := repo.battles[created.id];
    GeneratedRoundCoherent(created, 1, gen, b);
  }

  /**
   * `generate_complete_battle`: rounds 1, 2 and 3 in order, stopping early
   * once the battle is complete. No round is judged on the way, so the
   * battle never completes early: it always ends with three unjudged rounds
   * and no winner.
   */
  method GenerateCompleteBattle(repo: InMemoryBattleRepository, data: BattleCreate, gen: VerseOracle)
    returns (b: Battle)
    requires repo.Valid()
    modifies repo
    ensures repo.Valid()
    ensures b.id !in old(repo.battles) && repo.order == old(repo.order) + [b.id]
    ensures repo.battles == old(repo.battles)[b.id := b]
    ensures Coherent(b) && |b.rounds| == 3
    ensures Unjudged(b)
  {
    var created := BattleCrud.CreateBattle(repo, data);
    var id := created.id;
    ghost var battles0 := repo.battles;
    for n := 1 to 4
      invariant repo.Valid() && repo.order == old(repo.order) + [id] && id in repo.battles
      invariant repo.battles == battles0[id := repo.battles[id]]
      invariant |repo.battles[id].rounds| == n - 1
      invariant n > 1 ==> Coherent(repo.battles[id])
      invariant Unjudged(repo.battles[id]) && !IsBattleComplete(repo.battles[id])
    {
      ghost var before := repo.battles[id];
      var err := GenerateBattleRound(repo, id, n, gen);
      UpdateTwice(battles0, id, before, repo.battles[id]);
      GeneratedRoundKeepsOutcome(before, n, gen, repo.battles[id]);
      GeneratedRoundCoherent(before, n, gen, repo.battles[id]);
      GeneratedRoundUnjudged(before, n, gen, repo.battles[id]);
      if IsBattleComplete(repo.battles[id]) {
        // `break`: unreachable, no round has been judged
        assert false;
      }
    }
    b := repo.battles[id];
    var w := DetermineBattleWinner(b);
    match w {
      case Some(name) =>
        // `if battle_winner:` then `update_battle_winner`: unreachable, the battle is not complete
        assert false;
      case None =>
    }
  }

  /**
   * `continue_battle_to_next_round`: raises for an unknown battle; returns it
   * unchanged when complete or when round 3 is current; otherwise generates
   * round `current_round + 1`. Generating a round cannot complete a battle,
   * so the winner update that follows in the source never runs.
   */
  method ContinueBattleToNextRound(repo: InMemoryBattleRepository, battleId: Id, gen: VerseOracle)
    returns (r: Result<Battle, BattleError>)
    requires repo.Valid()
    modifies repo
    ensures repo.Valid() && repo.order == old(repo.order)
    ensures battleId !in old(repo.battles) ==> r == Err(BattleNotFound(battleId)) && repo.battles == old(repo.battles)
    ensures battleId in old(repo.battles) ==>
      var b := old(repo.battles)[battleId];
      && r.Ok? && battleId in repo.battles && r.value == repo.battles[battleId]
      && repo.battles == old(repo.battles)[battleId := r.value]
      && (IsBattleComplete(b) || b.currentRound == 3 ==> r.value == b)
      && (!IsBattleComplete(b) && b.currentRound < 3 ==> GeneratedRound(b, b.currentRound + 1, gen, r.value))
      && (Coherent(b) ==> Coherent(r.value))
  {
    var found := BattleCrud.GetBattle(repo, battleId);
    if found.None? {
      return Err(BattleNotFound(battleId));
    }
    var b := found.value;
    if IsBattleComplete(b) {
      return Ok(b);
    }
    var next := b.currentRound + 1;
    if next > 3 {
      return Ok(b);
    }
    var err := GenerateBattleRound(repo, battleId, next, gen);
    var current := repo.battles[battleId];
    GeneratedRoundKeepsOutcome(b, next, gen, current);
    if Coherent(b) {
      GeneratedRoundCoherent(b, next, gen, current);
    }
    if IsBattleComplete(current) {
      assert false;
    }
    r := Ok(current);
  }

  /** The verdict `judge_round` asks for: the user's when one is given, otherwise the AI judge's. */
  ghost predicate VerdictOf(b: Battle, i: nat, userJudgment: Option<JudgmentCreate>, reply: Option<string>, nb: Battle)
  {
    && (userJudgment.Some? ==>
          JudgedAs(b, i, userJudgment.value.winner, true, UserFeedback(userJudgment.value), nb))
    && (userJudgment.None? ==>
          exists winner, feedback :: IsContestant(b, winner) && JudgedAs(b, i, winner, false, Some(feedback), nb))
    && (userJudgment.None? && i < |b.rounds| && b.rounds[i].rapper1Verse.Some? && b.rounds[i].rapper2Verse.Some?
        && reply.Some? ==>
          JudgedAs(b, i, ExtractWinner(reply.value, b.rapper1Name, b.rapper2Name).0, false, reply, nb))
  }

  /**
   * What follows a verdict: the next round when the battle is neither
   * complete nor at three rounds (and round 3 is not current), else nothing.
   */
  ghost predicate Continued(b: Battle, gen: VerseOracle, nb: Battle)
  {
    if !IsBattleComplete(b) && |b.rounds| < 3 && b.currentRound < 3 then GeneratedRound(b, b.currentRound + 1, gen, nb)
    else nb == b
  }

  /**
   * A verdict on a coherent battle, followed by the next round when the
   * battle is neither complete nor at three rounds, leaves it coherent.
   */
  lemma {:induction false} JudgedThenContinuedCoherent(b0: Battle, i: nat, b: Battle, gen: VerseOracle, nb: Battle)
    requires Coherent(b0) && Judged(b0, i, b)
    requires Continued(b, gen, nb)
    ensures Coherent(nb)
    ensures |b0.rounds| <= |nb.rounds| <= |b0.rounds| + 1
    ensures |nb.rounds| == |b0.rounds| + 1 ==> !IsBattleComplete(nb)
  {
    JudgedCoherent(b0, i, b);
    if !IsBattleComplete(b) && |b.rounds| < 3 {
      GeneratedRoundKeepsOutcome(b, b.currentRound + 1, gen, nb);
      GeneratedRoundCoherent(b, b.currentRound + 1, gen, nb);
    }
  }

  /** The part of `judge_round` after the verdict: continue the battle when it is open, and reread it. */
  method NextRoundAfterVerdict(repo: InMemoryBattleRepository, battleId: Id, b: Battle, gen: VerseOracle)
    returns (nb: Battle)
    requires repo.Valid() && battleId in repo.battles && repo.battles[battleId] == b
    modifies repo
    ensures repo.Valid() && repo.order == old(repo.order)
    ensures repo.battles == old(repo.battles)[battleId := nb]
    ensures Continued(b, gen, nb)
  {
    if !IsBattleComplete(b) && |b.rounds| < 3 {
      var continued := ContinueBattleToNextRound(repo, battleId, gen);
      var refreshed := BattleCrud.GetBattle(repo, battleId);
      nb := refreshed.value;
      UpdateTwice(old(repo.battles), battleId, b, nb);
    } else {
      nb := b;
    }
  }

  /**
   * `judge_round`: judge (by the AI when no user verdict is given), then
   * generate the next round when the battle is neither complete nor at three
   * rounds, and return the stored battle.
   */
  method JudgeRound(repo: InMemoryBattleRepository, battleId: Id, roundId: Id, userJudgment: Option<JudgmentCreate>,
                    reply: Option<string>, gen: VerseOracle)
    returns (r: Result<Battle, BattleError>)
    requires repo.Valid()
    modifies repo
    ensures repo.Valid() && repo.order == old(repo.order)
    ensures battleId !in old(repo.battles) ==> r == Err(BattleNotFound(battleId)) && repo.battles == old(repo.battles)
    ensures battleId in old(repo.battles) && FindRound(old(repo.battles)[battleId].rounds, roundId).None? ==>
      r == Err(RoundNotFound(roundId)) && repo.battles == old(repo.battles)
    ensures battleId in old(repo.battles) && FindRound(old(repo.battles)[battleId].rounds, roundId).Some? ==>
      && r.Ok? && battleId in repo.battles && r.value == repo.battles[battleId]
      && repo.battles == old(repo.battles)[battleId := r.value]
      && var b0 := old(repo.battles)[battleId];
         var i := FindRound(b0.rounds, roundId).value;
         exists nb :: Judged(b0, i, nb) && VerdictOf(b0, i, userJudgment, reply, nb) && Continued(nb, gen, r.value)
    ensures r.Ok? && Coherent(old(repo.battles)[battleId]) ==>
      var b := old(repo.battles)[battleId];
      && Coherent(r.value)
      && |b.rounds| <= |r.value.rounds| <= |b.rounds| + 1
      && (|r.value.rounds| == |b.rounds| + 1 ==> !IsBattleComplete(r.value))
  {
    var useAi := userJudgment.None?;
    var judged := JudgeRoundAndUpdateBattle(repo, battleId, roundId, useAi, userJudgment, reply);
    if judged.Err? {
      return Err(judged.error);
    }
    var b := judged.value;
    ghost var b0 := old(repo.battles)[battleId];
    ghost var i := FindRound(b0.rounds, roundId).value;
    assert Judged(b0, i, b) && VerdictOf(b0, i, userJudgment, reply, b);
    var next := NextRoundAfterVerdict(repo, battleId, b, gen);
    UpdateTwice(old(repo.battles), battleId, b, next);
    r := Ok(next);
    if Coherent(b0) {
      JudgedThenContinuedCoherent(b0, i, b, gen, r.value);
    }
  }
}
