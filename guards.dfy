/** The read-only checks the route handlers run before changing anything.
    Each reads the committed store and either returns a row or fails. */
module Guards {
  import opened EngineTypes
  import opened Store

  /** `ensureGameRunning(gameId)`: the game, when it exists and is running
      or still waiting for players. */
  function EnsureGameRunning(t: Tables, gameId: Id): (r: Result<Game>)
    ensures r.Success? <==> gameId in t.games && (t.games[gameId].status == "running" || t.games[gameId].status == "waiting")
    ensures r.Success? ==> r.value == t.games[gameId]
    ensures gameId !in t.games ==> r == Failure(GameNotFound)
    ensures gameId in t.games && r.Failure? ==> r.error == GameNotRunning
  {
    if gameId !in t.games then Failure(GameNotFound)
    else if t.games[gameId].status != "running" && t.games[gameId].status != "waiting" then Failure(GameNotRunning)
    else Success(t.games[gameId])
  }

  /** `ensurePlayerInGame(gameId, playerId)`: the player row, when a player
      with that id belongs to that game. */
  function EnsurePlayerInGame(t: Tables, gameId: Id, playerId: Id): (r: Result<Player>)
    ensures r.Success? <==> playerId in t.players && t.players[playerId].gameId == gameId
    ensures r.Success? ==> r.value == t.players[playerId]
    ensures r.Failure? ==> r.error == PlayerNotInGame
  {
    if playerId in t.players && t.players[playerId].gameId == gameId then Success(t.players[playerId])
    else Failure(PlayerNotInGame)
  }

  /** `getCurrentTurn(gameId)`: the game's turn with the highest index (the
      first such row when several share it), or none. */
  function CurrentTurn(turns: seq<Turn>, gameId: Id): (r: Option<Turn>)
    ensures r.None? <==> forall i | 0 <= i < |turns| :: turns[i].gameId != gameId
    ensures r.Some? ==> r.value in turns && r.value.gameId == gameId
    ensures r.Some? ==> forall i | 0 <= i < |turns| && turns[i].gameId == gameId :: turns[i].index <= r.value.index
    decreases |turns|
  {
    if turns == [] then None
    else
      var rest := CurrentTurn(turns[1..], gameId);
      assert forall i | 1 <= i < |turns| :: turns[i] == turns[1..][i - 1];
      if turns[0].gameId != gameId then rest
      else if rest.None? || rest.value.index <= turns[0].index then Some(turns[0])
      else rest
  }

  /** `assertOneRuleChangePerTurn(count)`: passes only while no rule was
      changed this turn. */
  function AssertOneRuleChangePerTurn(count: int): (r: Outcome)
    ensures r == Pass <==> count < 1
    ensures r != Pass ==> r == Fail(RuleChangeQuotaExceeded)
  {
    if count >= 1 then Fail(RuleChangeQuotaExceeded) else Pass
  }
}
