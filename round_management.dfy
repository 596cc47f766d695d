/** Creating rounds, collecting earlier verses for context, and the completion test. */
module RoundManagement {
  import opened Wrappers
  import opened Models
  import opened BattleRepo

  /** The entries one round contributes to the context of round `n`: rapper1's verse, then rapper2's. */
  function RoundEntries(round: Round, r1: string, r2: string, n: int): seq<NamedVerse>
  {
    if round.roundNumber < n then
      (if round.rapper1Verse.Some? then [NamedVerse(r1, round.rapper1Verse.value.content)] else [])
      + (if round.rapper2Verse.Some? then [NamedVerse(r2, round.rapper2Verse.value.content)] else [])
    else []
  }

  /** The verses of every round numbered below `n`, in the order of `rounds`. */
  function PreviousVerses(rounds: seq<Round>, r1: string, r2: string, n: int): seq<NamedVerse>
  {
    if |rounds| == 0 then []
    else PreviousVerses(rounds[..|rounds| - 1], r1, r2, n) + RoundEntries(rounds[|rounds| - 1], r1, r2, n)
  }

  /** How many rounds are numbered below `n`. */
  function EarlierCount(rounds: seq<Round>, n: int): (c: nat)
    ensures c <= |rounds|
  {
    if |rounds| == 0 then 0
    else EarlierCount(rounds[..|rounds| - 1], n) + (if rounds[|rounds| - 1].roundNumber < n then 1 else 0)
  }

  /** `get_previous_verses` */
  method GetPreviousVerses(battle: Battle, n: int) returns (r: seq<NamedVerse>)
    ensures r == PreviousVerses(battle.rounds, battle.rapper1Name, battle.rapper2Name, n)
  {
    r := [];
    var k := 0;
    while k < |battle.rounds|
      invariant 0 <= k <= |battle.rounds|
      invariant r == PreviousVerses(battle.rounds[..k], battle.rapper1Name, battle.rapper2Name, n)
    {
      var round := battle.rounds[k];
      assert battle.rounds[..k + 1][..k] == battle.rounds[..k];
      if round.roundNumber < n {
        if round.rapper1Verse.Some? {
          r := r + [NamedVerse(battle.rapper1Name, round.rapper1Verse.value.content)];
        }
        if round.rapper2Verse.Some? {
          r := r + [NamedVerse(battle.rapper2Name, round.rapper2Verse.value.content)];
        }
      }
      k := k + 1;
    }
    assert battle.rounds[..k] == battle.rounds;
  }

  /** A round numbered `n` or later adds nothing to the context of round `n`. */
  lemma PreviousVersesAppendLater(rounds: seq<Round>, round: Round, r1: string, r2: string, n: int)
    requires round.roundNumber >= n
    ensures PreviousVerses(rounds + [round], r1, r2, n) == PreviousVerses(rounds, r1, r2, n)
  {
    assert (rounds + [round])[..|rounds|] == rounds;
  }

  /** No round is numbered below 1, so the first round gets no context. */
  lemma {:induction false} PreviousVersesFirstRound(rounds: seq<Round>, r1: string, r2: string)
    ensures PreviousVerses(rounds, r1, r2, 1) == []
  {
    if |rounds| > 0 {
      PreviousVersesFirstRound(rounds[..|rounds| - 1], r1, r2);
    }
  }

  /**
   * At most two entries per earlier round, exactly two when every round has
   * both verses, and every entry is attributed to one of the two rappers.
   */
  lemma {:induction false} PreviousVersesShape(rounds: seq<Round>, r1: string, r2: string, n: int)
    ensures |PreviousVerses(rounds, r1, r2, n)| <= 2 * EarlierCount(rounds, n)
    ensures (forall i :: 0 <= i < |rounds| ==> rounds[i].rapper1Verse.Some? && rounds[i].rapper2Verse.Some?) ==>
      |PreviousVerses(rounds, r1, r2, n)| == 2 * EarlierCount(rounds, n)
    ensures forall e :: e in PreviousVerses(rounds, r1, r2, n) ==> e.rapperName == r1 || e.rapperName == r2
  {
    if |rounds| > 0 {
      PreviousVersesShape(rounds[..|rounds| - 1], r1, r2, n);
    }
  }

  /** `e` is the entry of rapper1's or rapper2's verse of round `i`, numbered below `n`. */
  predicate QuotesRound(rounds: seq<Round>, i: int, r1: string, r2: string, n: int, e: NamedVerse)
  {
    && 0 <= i < |rounds| && rounds[i].roundNumber < n
    && ((rounds[i].rapper1Verse.Some? && e == NamedVerse(r1, rounds[i].rapper1Verse.value.content))
        || (rounds[i].rapper2Verse.Some? && e == NamedVerse(r2, rounds[i].rapper2Verse.value.content)))
  }

  /** Each entry quotes a verse of a round numbered below `n`. */
  lemma {:induction false} PreviousVersesFromEarlierRounds(rounds: seq<Round>, r1: string, r2: string, n: int)
    ensures forall e :: e in PreviousVerses(rounds, r1, r2, n) ==> exists i :: QuotesRound(rounds, i, r1, r2, n, e)
  {
    if |rounds| > 0 {
      var init := rounds[..|rounds| - 1];
      PreviousVersesFromEarlierRounds(init, r1, r2, n);
      forall e | e in PreviousVerses(rounds, r1, r2, n)
        ensures exists i :: QuotesRound(rounds, i, r1, r2, n, e)
      {
        if e in PreviousVerses(init, r1, r2, n) {
          var i :| QuotesRound(init, i, r1, r2, n, e);
          assert rounds[i] == init[i];
          assert QuotesRound(rounds, i, r1, r2, n, e);
        } else {
          assert e in RoundEntries(rounds[|rounds| - 1], r1, r2, n);
          assert QuotesRound(rounds, |rounds| - 1, r1, r2, n, e);
        }
      }
    }
  }

  /** Every round id stored anywhere in the repository. */
  function AllRoundIds(battles: map<Id, Battle>): set<Id>
  {
    set id, i | id in battles && 0 <= i < |battles[id].rounds| :: battles[id].rounds[i].id
  }

  /**
   * `create_round`: rejects numbers outside 1..3 before touching the
   * repository, then appends a fresh round without verses.
   */
  method CreateRound(repo: InMemoryBattleRepository, battleId: Id, n: int) returns (r: Result<Round, BattleError>)
    requires repo.Valid()
    modifies repo
    ensures repo.Valid() && repo.order == old(repo.order)
    ensures !(1 <= n <= 3) ==> r == Err(InvalidRoundNumber(n)) && repo.battles == old(repo.battles)
    ensures 1 <= n <= 3 && battleId !in old(repo.battles) ==>
      r == Err(BattleNotFound(battleId)) && repo.battles == old(repo.battles)
    ensures 1 <= n <= 3 && battleId in old(repo.battles) ==>
      && r.Ok?
      && r.value == NewRound(r.value.id, battleId, n)
      && r.value.id !in AllRoundIds(old(repo.battles))
      && repo.battles == old(repo.battles)[battleId := WithRound(old(repo.battles)[battleId], r.value)]
  {
    if n < 1 || n > 3 {
      return Err(InvalidRoundNumber(n));
    }
    var taken := AllRoundIds(repo.battles);
    ghost var bound := Above(taken);
    assert bound !in taken;
    var id: Id :| id !in taken;
    var round := NewRound(id, battleId, n);
    r := repo.AddRoundToBattle(battleId, round);
  }

  /** `add_verses_to_round`: the repository operation, errors passed on. */
  method AddVersesToRound(repo: InMemoryBattleRepository, battleId: Id, roundId: Id, v1: Verse, v2: Verse)
    returns (r: Result<Round, BattleError>)
    requires repo.Valid()
    modifies repo
    ensures repo.Valid() && repo.order == old(repo.order)
    ensures battleId !in old(repo.battles) ==> r == Err(BattleNotFound(battleId)) && repo.battles == old(repo.battles)
    ensures battleId in old(repo.battles) ==>
      match WithVerses(old(repo.battles)[battleId], roundId, v1, v2)
      case None => r == Err(RoundNotFound(roundId)) && repo.battles == old(repo.battles)
      case Some(nb) =>
        var i := FindRound(old(repo.battles)[battleId].rounds, roundId).value;
        r == Ok(nb.rounds[i]) && repo.battles == old(repo.battles)[battleId := nb]
  {
    r := repo.AddVersesToRound(battleId, roundId, v1, v2);
  }

  /** `is_battle_complete`: someone has two wins, or three rounds are completed. */
  predicate IsBattleComplete(b: Battle)
  {
    b.rapper1Wins >= 2 || b.rapper2Wins >= 2 || CompletedCount(b.rounds) >= 3
  }
}
