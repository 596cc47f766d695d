/** Create, read and list battles, and set a battle's winner. */
module BattleCrud {
  import opened Wrappers
  import opened Models
  import opened BattleRepo

  /** `create_battle`: the battle the repository stored. */
  method CreateBattle(repo: InMemoryBattleRepository, data: BattleCreate) returns (b: Battle)
    requires repo.Valid()
    modifies repo
    ensures repo.Valid()
    ensures b.id !in old(repo.battles) && b == NewBattle(b.id, data)
    ensures repo.battles == old(repo.battles)[b.id := b]
    ensures repo.order == old(repo.order) + [b.id]
  {
    b := repo.CreateBattle(data);
  }

  /** `get_battle`: None, without raising, for an unknown id. */
  method GetBattle(repo: InMemoryBattleRepository, battleId: Id) returns (r: Option<Battle>)
    ensures battleId in repo.battles ==> r == Some(repo.battles[battleId])
    ensures battleId !in repo.battles ==> r.None?
  {
    r := repo.GetBattle(battleId);
  }

  /** `list_battles` */
  method ListBattles(repo: InMemoryBattleRepository) returns (r: seq<Battle>)
    requires repo.Valid()
    ensures |r| == |repo.order|
    ensures forall i :: 0 <= i < |r| ==> r[i] == repo.battles[repo.order[i]]
  {
    r := repo.ListBattles();
  }

  /** The stored battle once `update_battle_winner` has run: any name, and status completed. */
  function WithWinner(b: Battle, winner: string): (nb: Battle)
    ensures nb.winner == Some(winner) && nb.status == Completed
    ensures nb.rounds == b.rounds && nb.rapper1Wins == b.rapper1Wins && nb.rapper2Wins == b.rapper2Wins
    ensures nb.currentRound == b.currentRound && nb.id == b.id
  {
    b.(winner := Some(winner), status := Completed)
  }

  /**
   * `update_battle_winner`: None and no change for an unknown battle; otherwise
   * the name is stored as given, without checking it against the contestants.
   */
  method UpdateBattleWinner(repo: InMemoryBattleRepository, battleId: Id, winner: string) returns (r: Option<Battle>)
    requires repo.Valid()
    modifies repo
    ensures repo.Valid() && repo.order == old(repo.order)
    ensures battleId !in old(repo.battles) ==> r.None? && repo.battles == old(repo.battles)
    ensures battleId in old(repo.battles) ==>
      var nb := WithWinner(old(repo.battles)[battleId], winner);
      r == Some(nb) && repo.battles == old(repo.battles)[battleId := nb]
  {
    var found := repo.GetBattle(battleId);
    if found.None? {
      return None;
    }
    var updated := repo.UpdateBattle(WithWinner(found.value, winner));
    r := Some(updated.value);
  }
}
