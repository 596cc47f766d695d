/**
 * The in-memory battle repository: a dictionary from battle id to the stored
 * battle. `order` records the dictionary's insertion order, which
 * `list_battles` exposes.
 */
module BattleRepo {
  import opened Wrappers
  import opened Models

  class InMemoryBattleRepository {
    var battles: map<Id, Battle>
    var order: seq<Id>

    /** Each stored battle is keyed by its own id, and `order` lists every key once. */
    ghost predicate Valid()
      reads this
    {
      && (forall i, j :: 0 <= i < j < |order| ==> order[i] != order[j])
      && (forall id :: id in battles <==> id in order)
      && (forall id :: id in battles ==> battles[id].id == id)
    }

    constructor()
      ensures Valid()
      ensures battles == map[] && order == []
    {
      battles := map[];
      order := [];
    }

    /** `create_battle`: a battle with a fresh id, the request's names and styles and defaults elsewhere. */
    method CreateBattle(data: BattleCreate) returns (b: Battle)
      requires Valid()
      modifies this
      ensures Valid()
      ensures b.id !in old(battles)
      ensures b == NewBattle(b.id, data)
      ensures battles == old(battles)[b.id := b]
      ensures order == old(order) + [b.id]
    {
      ghost var bound := Above(battles.Keys);
      assert bound !in battles;
      var id: Id :| id !in battles;
      b := NewBattle(id, data);
      battles := battles[id := b];
      order := order + [id];
    }

    /** `get_battle`: the stored battle, or None. */
    method GetBattle(battleId: Id) returns (r: Option<Battle>)
      ensures battleId in battles ==> r == Some(battles[battleId])
      ensures battleId !in battles ==> r.None?
    {
      if battleId in battles {
        r := Some(battles[battleId]);
      } else {
        r := None;
      }
    }

    /** `list_battles`: every stored battle once, in insertion order. */
    method ListBattles() returns (r: seq<Battle>)
      requires Valid()
      ensures |r| == |order| == |battles|
      ensures forall i :: 0 <= i < |r| ==> r[i] == battles[order[i]]
      ensures forall id :: id in battles ==> exists i :: 0 <= i < |r| && r[i] == battles[id]
      ensures forall i, j :: 0 <= i < j < |r| ==> r[i].id != r[j].id
    {
      r := [];
      var k := 0;
      while k < |order|
        invariant 0 <= k <= |order|
        invariant |r| == k
        invariant forall i :: 0 <= i < k ==> order[i] in battles && r[i] == battles[order[i]]
      {
        r := r + [battles[order[k]]];
        k := k + 1;
      }
      DistinctKeysCount();
      forall id | id in battles
        ensures exists i :: 0 <= i < |r| && r[i] == battles[id]
      {
        var i :| 0 <= i < |order| && order[i] == id;
        assert r[i] == battles[id];
      }
    }

    /** A duplicate-free listing of the keys has as many entries as there are keys. */
    lemma DistinctKeysCount()
      requires Valid()
      ensures |order| == |battles|
    {
      var keys := set i | 0 <= i < |order| :: order[i];
      assert keys == battles.Keys;
      DistinctSeqCard(order);
    }

    /** `update_battle`: raises for an absent id, otherwise replaces that one entry. */
    method UpdateBattle(b: Battle) returns (r: Result<Battle, BattleError>)
      requires Valid()
      modifies this
      ensures Valid()
      ensures order == old(order)
      ensures b.id !in old(battles) ==> r == Err(BattleNotFound(b.id)) && battles == old(battles)
      ensures b.id in old(battles) ==> r == Ok(b) && battles == old(battles)[b.id := b]
    {
      if b.id !in battles {
        return Err(BattleNotFound(b.id));
      }
      battles := battles[b.id := b];
      r := Ok(b);
    }

    /** `add_round_to_battle`: appends the round and makes its number the current round. */
    method AddRoundToBattle(battleId: Id, round: Round) returns (r: Result<Round, BattleError>)
      requires Valid()
      modifies this
      ensures Valid()
      ensures order == old(order)
      ensures battleId !in old(battles) ==> r == Err(BattleNotFound(battleId)) && battles == old(battles)
      ensures battleId in old(battles) ==>
        r == Ok(round) && battles == old(battles)[battleId := WithRound(old(battles)[battleId], round)]
    {
      if battleId !in battles {
        return Err(BattleNotFound(battleId));
      }
      var b := battles[battleId];
      battles := battles[battleId := b.(rounds := b.rounds + [round], currentRound := round.roundNumber)];
      r := Ok(round);
    }

    /** `add_verses_to_round`: fills both verse slots of the first round with that id. */
    method AddVersesToRound(battleId: Id, roundId: Id, v1: Verse, v2: Verse) returns (r: Result<Round, BattleError>)
      requires Valid()
      modifies this
      ensures Valid()
      ensures order == old(order)
      ensures battleId !in old(battles) ==> r == Err(BattleNotFound(battleId)) && battles == old(battles)
      ensures battleId in old(battles) ==>
        match WithVerses(old(battles)[battleId], roundId, v1, v2)
        case None => r == Err(RoundNotFound(roundId)) && battles == old(battles)
        case Some(nb) =>
          var i := FindRound(old(battles)[battleId].rounds, roundId).value;
          r == Ok(nb.rounds[i]) && battles == old(battles)[battleId := nb]
    {
      if battleId !in battles {
        return Err(BattleNotFound(battleId));
      }
      var b := battles[battleId];
      var k := 0;
      while k < |b.rounds|
        invariant 0 <= k <= |b.rounds|
        invariant forall j :: 0 <= j < k ==> b.rounds[j].id != roundId
      {
        if b.rounds[k].id == roundId {
          var round := b.rounds[k].(rapper1Verse := Some(v1), rapper2Verse := Some(v2));
          battles := battles[battleId := b.(rounds := b.rounds[k := round])];
          return Ok(round);
        }
        k := k + 1;
      }
      r := Err(RoundNotFound(roundId));
    }
  }

  /** A sequence without repetitions has as many elements as the set of its elements. */
  lemma {:induction false} DistinctSeqCard(s: seq<Id>)
    requires forall i, j :: 0 <= i < j < |s| ==> s[i] != s[j]
    ensures |set i | 0 <= i < |s| :: s[i]| == |s|
  {
    if |s| > 0 {
      var t := s[..|s| - 1];
      DistinctSeqCard(t);
      var a := set i | 0 <= i < |t| :: t[i];
      var b := set i | 0 <= i < |s| :: s[i];
      assert b == a + {s[|s| - 1]};
      assert s[|s| - 1] !in a;
    }
  }

  /** The battle after `add_round_to_battle`. */
  function WithRound(b: Battle, round: Round): (nb: Battle)
    ensures nb.rounds == b.rounds + [round] && nb.currentRound == round.roundNumber
    ensures nb == b.(rounds := nb.rounds, currentRound := nb.currentRound)
  {
    b.(rounds := b.rounds + [round], currentRound := round.roundNumber)
  }

  /**
   * The battle after `add_verses_to_round`, or None when no round has the id.
   * Only the first round with that id changes, and only in its verse slots.
   */
  function WithVerses(b: Battle, roundId: Id, v1: Verse, v2: Verse): (r: Option<Battle>)
    ensures r.None? <==> FindRound(b.rounds, roundId).None?
    ensures r.Some? ==>
      var i := FindRound(b.rounds, roundId).value;
      && r.value == b.(rounds := r.value.rounds)
      && |r.value.rounds| == |b.rounds|
      && r.value.rounds[i] == b.rounds[i].(rapper1Verse := Some(v1), rapper2Verse := Some(v2))
      && (forall j :: 0 <= j < |b.rounds| && j != i ==> r.value.rounds[j] == b.rounds[j])
  {
    match FindRound(b.rounds, roundId)
    case None => None
    case Some(i) => Some(b.(rounds := b.rounds[i := b.rounds[i].(rapper1Verse := Some(v1), rapper2Verse := Some(v2))]))
  }
}
