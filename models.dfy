/**
 * The records of a rap battle: verses, rounds, battles and the requests
 * that create a battle or judge a round, with their declared defaults.
 */
module Models {
  import opened Wrappers

  /** A UUID. Only equality and freshness of identifiers matter here. */
  type Id = nat

  /** Fields declared with `ge=1, le=3`. */
  type RoundNumber = n: int | 1 <= n <= 3 witness 1

  /** The two values the status strings take: "in_progress" and "completed". */
  datatype Status = InProgress | Completed

  /** A verse written by one rapper for one round. */
  datatype Verse = Verse(roundId: Id, rapperName: string, content: string)

  /** A `{"rapper_name": ..., "content": ...}` dictionary passed to or from the verse generator. */
  datatype NamedVerse = NamedVerse(rapperName: string, content: string)

  datatype Round = Round(
    id: Id,
    battleId: Id,
    roundNumber: RoundNumber,
    rapper1Verse: Option<Verse>,
    rapper2Verse: Option<Verse>,
    winner: Option<string>,
    judgeFeedback: Option<string>,
    userJudgment: Option<bool>,
    status: Status)

  datatype BattleCreate = BattleCreate(style1: string, style2: string, rapper1Name: string, rapper2Name: string)

  /**
   * A stored battle. The win counters are declared within 0..3, but nothing
   * checks that bound when they are incremented, so they are natural numbers.
   */
  datatype Battle = Battle(
    id: Id,
    style1: string,
    style2: string,
    rapper1Name: string,
    rapper2Name: string,
    rounds: seq<Round>,
    status: Status,
    currentRound: RoundNumber,
    rapper1Wins: nat,
    rapper2Wins: nat,
    winner: Option<string>)

  /** A user's verdict on one round. */
  datatype JudgmentCreate = JudgmentCreate(roundId: Id, winner: string, feedback: Option<string>)

  /** The exceptions the battle services raise. */
  datatype BattleError =
    | BattleNotFound(battleId: Id)
    | RoundNotFound(roundId: Id)
    | InvalidRoundNumber(number: int)
    | UserJudgmentRequired
    | NoSuchField(field: string)

  /** `Round(battle_id=..., round_number=...)` with every other field at its default. */
  function NewRound(id: Id, battleId: Id, n: RoundNumber): (r: Round)
    ensures r.id == id && r.battleId == battleId && r.roundNumber == n
    ensures r.rapper1Verse.None? && r.rapper2Verse.None?
    ensures r.winner.None? && r.judgeFeedback.None? && r.userJudgment.None?
    ensures r.status == InProgress
  {
    Round(id, battleId, n, None, None, None, None, None, InProgress)
  }

  /** `BattleDB(...)` built from a creation request, every other field at its default. */
  function NewBattle(id: Id, data: BattleCreate): (b: Battle)
    ensures b.id == id
    ensures b.rapper1Name == data.rapper1Name && b.rapper2Name == data.rapper2Name
    ensures b.style1 == data.style1 && b.style2 == data.style2
    ensures b.rounds == [] && b.status == InProgress && b.currentRound == 1
    ensures b.rapper1Wins == 0 && b.rapper2Wins == 0 && b.winner.None?
  {
    Battle(id, data.style1, data.style2, data.rapper1Name, data.rapper2Name, [], InProgress, 1, 0, 0, None)
  }

  /** `sum(1 for r in rounds if r.status == "completed")` */
  function CompletedCount(rounds: seq<Round>): (c: nat)
    ensures c <= |rounds|
  {
    if |rounds| == 0 then 0
    else CompletedCount(rounds[..|rounds| - 1]) + (if rounds[|rounds| - 1].status == Completed then 1 else 0)
  }

  lemma {:induction false} CompletedCountAppend(rounds: seq<Round>, r: Round)
    ensures CompletedCount(rounds + [r]) == CompletedCount(rounds) + (if r.status == Completed then 1 else 0)
  {
    assert (rounds + [r])[..|rounds|] == rounds;
  }

  /** Counting completed rounds only depends on the status of each round. */
  lemma {:induction false} CompletedCountSameStatus(a: seq<Round>, b: seq<Round>)
    requires |a| == |b|
    requires forall i :: 0 <= i < |a| ==> a[i].status == b[i].status
    ensures CompletedCount(a) == CompletedCount(b)
  {
    if |a| > 0 {
      CompletedCountSameStatus(a[..|a| - 1], b[..|b| - 1]);
    }
  }

  /** Completing one round that was in progress raises the count by exactly one. */
  lemma {:induction false} CompletedCountComplete(rounds: seq<Round>, i: nat, r: Round)
    requires i < |rounds|
    requires r.status == Completed
    ensures CompletedCount(rounds[i := r]) ==
      CompletedCount(rounds) + (if rounds[i].status == Completed then 0 else 1)
  {
    if i < |rounds| - 1 {
      CompletedCountComplete(rounds[..|rounds| - 1], i, r);
      assert rounds[i := r][..|rounds| - 1] == rounds[..|rounds| - 1][i := r];
    } else {
      CompletedCountSameStatus(rounds[i := r][..i], rounds[..i]);
    }
  }

  /** The index of the first round with the given id, as the `for ... break` loops find it. */
  function FindRound(rounds: seq<Round>, roundId: Id): (r: Option<nat>)
    ensures r.Some? ==> r.value < |rounds| && rounds[r.value].id == roundId
    ensures r.Some? ==> forall j :: 0 <= j < r.value ==> rounds[j].id != roundId
    ensures r.None? <==> forall j :: 0 <= j < |rounds| ==> rounds[j].id != roundId
  {
    if |rounds| == 0 then None
    else if rounds[0].id == roundId then Some(0)
    else
      var t := FindRound(rounds[1..], roundId);
      if t.Some? then Some(t.value + 1) else None
  }

  /** A round appended with an id no earlier round has is found at the end. */
  lemma {:induction false} FindRoundAppendFresh(rounds: seq<Round>, r: Round)
    requires forall i :: 0 <= i < |rounds| ==> rounds[i].id != r.id
    ensures FindRound(rounds + [r], r.id) == Some(|rounds|)
  {
    var t := FindRound(rounds + [r], r.id);
    assert (rounds + [r])[|rounds|].id == r.id;
  }

  /** The set of the round ids of a battle. */
  function RoundIds(rounds: seq<Round>): (s: set<Id>)
    ensures forall i :: 0 <= i < |rounds| ==> rounds[i].id in s
    ensures forall id :: id in s ==> exists i :: 0 <= i < |rounds| && rounds[i].id == id
  {
    set i | 0 <= i < |rounds| :: rounds[i].id
  }

  /** A number larger than every element of a finite set, the witness that a fresh id exists. */
  ghost function Above(s: set<Id>): (r: Id)
    ensures forall x :: x in s ==> x < r
  {
    if s == {} then 0
    else
      var x :| x in s;
      var t := Above(s - {x});
      assert forall y :: y in s ==> y == x || y in s - {x};
      if t > x then t else x + 1
  }
}
