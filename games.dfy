/** Game creation (`POST /api/games`): one transaction that builds the
    20-tile track, links it, seats the players with their pawn and die,
    opens turn 1, starts the game and logs it. */
module Games {
  import opened EngineTypes
  import opened Json
  import opened Store
  import opened Events
  import opened Validators

  const TrackLength: nat := 20
  const DefaultColor: string := "#cccccc"
  const D6Faces: seq<int> := [1, 2, 3, 4, 5, 6]

  function Preset(x: int): string {
    if x == 0 then "start" else if x == 19 then "goal" else "neutral"
  }

  function TileTags(x: int): seq<string> {
    if x == 19 then ["arrival"] else []
  }

  /** The rows `tilesData` creates for game `g`; `createMany` numbers them
      from `g + 1`. */
  function TrackTiles(g: Id): seq<Tile> {
    seq(TrackLength, x requires 0 <= x < TrackLength => Tile(g + 1 + x, g, x, 0, Preset(x), TileTags(x)))
  }

  /** The tiles of game `gameId`, in table order (`findMany({ where: { gameId } })`). */
  function TilesOf(tiles: seq<Tile>, gameId: Id): seq<Tile>
    decreases |tiles|
  {
    if tiles == [] then []
    else
      var last := tiles[|tiles| - 1];
      TilesOf(tiles[..|tiles| - 1], gameId) + (if last.gameId == gameId then [last] else [])
  }

  /** The 19 forward connections of game `g`'s track, numbered from
      `g + 21`: the i-th joins the tiles numbered `g + 1 + i` and `g + 2 + i`. */
  function TrackConnections(g: Id): seq<Connection> {
    seq(TrackLength - 1, i requires 0 <= i < TrackLength - 1 => Connection(g + 21 + i, g, g + 1 + i, g + 2 + i, true))
  }

  /** One pass of the players loop: the player, its core pawn at (0, 0),
      the player's `mainPawnId` set to it, and its D6. */
  function AddPlayer(t: Tables, g: Id, p: PlayerInput): Tables {
    var pid := t.nextId;
    t.(players := t.players[pid := Player(g, p.nickname, p.color.GetOr(DefaultColor), true, Some(pid + 1))],
       pawns := t.pawns[pid + 1 := Pawn(g, Some(pid), "core", 0, 0)],
       dice := t.dice + [Die(pid + 2, g, pid, "D6", D6Faces)],
       nextId := t.nextId + 3)
  }

  function AddPlayers(t: Tables, g: Id, ps: seq<PlayerInput>): Tables
    decreases |ps|
  {
    if ps == [] then t else AddPlayer(AddPlayers(t, g, ps[..|ps| - 1]), g, ps[|ps| - 1])
  }

  function Nicknames(ps: seq<PlayerInput>): seq<Value> {
    seq(|ps|, i requires 0 <= i < |ps| => Str(ps[i].nickname))
  }

  function CreatedPayload(x: CreateGameInput): Value {
    Obj(map["name" := Str(x.name), "players" := Arr(Nicknames(x.players))])
  }

  /** The player, pawn and die ids of the k-th player of game `g`. */
  function PlayerIdOf(g: Id, k: nat): Id { g + 40 + 3 * k }

  /** The store once the game row, its track and the track's links exist. */
  function BoardStage(t: Tables, name: string, seed: string): Tables {
    var g := t.nextId;
    t.(games := t.games[g := Game(name, "waiting", seed)],
       tiles := t.tiles + TrackTiles(g),
       connections := t.connections + TrackConnections(g),
       nextId := g + 40)
  }

  /** The store once turn 1 is open, with the first seated player to play,
      and the game is running. */
  function OpenTurn(t: Tables, g: Id, x: CreateGameInput, seed: string): Tables {
    t.(turns := t.turns + [Turn(t.nextId, g, 1, PlayerIdOf(g, 0))],
       games := t.games[g := Game(x.name, "running", seed)],
       nextId := t.nextId + 1)
  }

  /** The store once the creation is logged against turn 1. */
  function FinishStage(t: Tables, g: Id, x: CreateGameInput, seed: string): Tables {
    Logged(OpenTurn(t, g, x, seed), g, "GAME_CREATED", CreatedPayload(x), Some(t.nextId), None)
  }

  /** The store after the transaction for an accepted body: ids are handed
      out in creation order, starting with the game's own. */
  function CreateGameSpec(t: Tables, x: CreateGameInput, seed: string): Tables {
    FinishStage(AddPlayers(BoardStage(t, x.name, seed), t.nextId, x.players), t.nextId, x, seed)
  }

  // ---------------------------------------------------------------------------
  // The transaction, step by step

  /** Creates the track's tiles and reads them back. */
  method CreateTrack(db: Db, g: Id) returns (allTiles: seq<Tile>)
    requires db.Valid() && db.nextId == g + 1
    requires forall i | 0 <= i < |db.tiles| :: db.tiles[i].gameId < g
    modifies db
    ensures db.Valid()
    ensures db.Snapshot() == old(db.Snapshot()).(tiles := old(db.tiles) + TrackTiles(g), nextId := g + 21)
    ensures allTiles == TrackTiles(g)
  {
    TrackWellFormed(db.Snapshot(), g);
    ReadBackTrack(db.tiles, g);
    db.tiles := db.tiles + TrackTiles(g);
    db.nextId := g + 21;
    allTiles := TilesOf(db.tiles, g);
  }

  /** The connections loop: one forward link between consecutive tiles. */
  method LinkTrack(db: Db, g: Id, allTiles: seq<Tile>)
    requires db.Valid() && db.nextId == g + 21 && allTiles == TrackTiles(g)
    modifies db
    ensures db.Valid()
    ensures db.Snapshot() == old(db.Snapshot()).(connections := old(db.connections) + TrackConnections(g), nextId := g + 40)
  {
    ghost var t := db.Snapshot();
    ghost var links := TrackConnections(g);
    for i := 0 to |allTiles| - 1
      invariant db.Snapshot() == t.(connections := t.connections + links[..i], nextId := g + 21 + i)
    {
      assert Connection(db.nextId, g, allTiles[i].id, allTiles[i + 1].id, true) == links[i];
      db.connections := db.connections + [Connection(db.nextId, g, allTiles[i].id, allTiles[i + 1].id, true)];
      db.nextId := db.nextId + 1;
      assert links[..i + 1] == links[..i] + [links[i]];
    }
    assert links[..TrackLength - 1] == links;
    LinksWellFormed(t, g);
  }

  /** The game row, then the track and its links. */
  method CreateBoard(db: Db, name: string, seed: string) returns (g: Id)
    requires db.Valid()
    modifies db
    ensures db.Valid()
    ensures g == old(db.nextId) && db.Snapshot() == BoardStage(old(db.Snapshot()), name, seed)
  {
    g := db.nextId;
    GameWellFormed(db.Snapshot(), name, seed);
    db.games := db.games[g := Game(name, "waiting", seed)];
    db.nextId := g + 1;
    var allTiles := CreateTrack(db, g);
    LinkTrack(db, g, allTiles);
  }

  /** One pass of the players loop. */
  method SeatPlayer(db: Db, g: Id, p: PlayerInput) returns (playerId: Id)
    requires db.Valid()
    modifies db
    ensures db.Valid()
    ensures db.Snapshot() == AddPlayer(old(db.Snapshot()), g, p) && playerId == old(db.nextId)
  {
    ghost var t := db.Snapshot();
    playerId := db.nextId;
    db.players := db.players[playerId := Player(g, p.nickname, p.color.GetOr(DefaultColor), true, None)];
    db.nextId := db.nextId + 1;
    var pawnId := db.nextId;
    db.pawns := db.pawns[pawnId := Pawn(g, Some(playerId), "core", 0, 0)];
    db.nextId := db.nextId + 1;
    db.players := db.players[playerId := db.players[playerId].(mainPawnId := Some(pawnId))];
    db.dice := db.dice + [Die(db.nextId, g, playerId, "D6", D6Faces)];
    db.nextId := db.nextId + 1;
    assert db.Snapshot() == AddPlayer(t, g, p);
    AddPlayerWellFormed(t, g, p);
  }

  /** The players loop; `created` collects the new player ids. */
  method CreatePlayers(db: Db, g: Id, ps: seq<PlayerInput>) returns (created: seq<Id>)
    requires db.Valid()
    modifies db
    ensures db.Valid()
    ensures db.Snapshot() == AddPlayers(old(db.Snapshot()), g, ps)
    ensures |created| == |ps| && forall k | 0 <= k < |ps| :: created[k] == old(db.nextId) + 3 * k
  {
    created := [];
    ghost var t0 := db.Snapshot();
    for i := 0 to |ps|
      invariant db.Valid()
      invariant db.Snapshot() == AddPlayers(t0, g, ps[..i])
      invariant db.nextId == t0.nextId + 3 * i
      invariant |created| == i && forall k | 0 <= k < i :: created[k] == t0.nextId + 3 * k
    {
      var playerId := SeatPlayer(db, g, ps[i]);
      created := created + [playerId];
      SplitPlayers(ps, i);
    }
    assert ps[..|ps|] == ps;
  }

  lemma SplitPlayers(ps: seq<PlayerInput>, i: nat)
    requires i < |ps|
    ensures ps[..i + 1][..i] == ps[..i] && ps[..i + 1][i] == ps[i]
  {
  }

  /** Turn 1, the status change and the GAME_CREATED entry. */
  method FinishGame(db: Db, g: Id, x: CreateGameInput, seed: string, firstPlayer: Id)
    requires db.Valid() && g < db.nextId && firstPlayer == PlayerIdOf(g, 0)
    requires g in db.games && db.games[g] == Game(x.name, "waiting", seed)
    modifies db
    ensures db.Valid()
    ensures db.Snapshot() == FinishStage(old(db.Snapshot()), g, x, seed)
  {
    ghost var t := db.Snapshot();
    var turnId := db.nextId;
    db.turns := db.turns + [Turn(turnId, g, 1, firstPlayer)];
    db.nextId := db.nextId + 1;
    db.games := db.games[g := db.games[g].(status := "running")];
    assert db.Snapshot() == OpenTurn(t, g, x, seed);
    OpenTurnWellFormed(t, g, x, seed);
    var _ := LogEvent(db, g, "GAME_CREATED", CreatedPayload(x), Some(turnId), None);
  }

  /** `POST /api/games` for a request body and the seed `randomHex(8)` drew:
      the new game's id, or the error the schema check throws. */
  method CreateGame(db: Db, body: Value, seed: string) returns (r: Result<Id>)
    requires db.Valid()
    modifies db
    ensures db.Valid()
    ensures ParseCreateGame(body).None? ==> r == Failure(InvalidRequest) && db.Snapshot() == old(db.Snapshot())
    ensures ParseCreateGame(body).Some? ==>
              r == Success(old(db.nextId)) && db.Snapshot() == CreateGameSpec(old(db.Snapshot()), ParseCreateGame(body).value, seed)
  {
    var input := ParseCreateGame(body);
    if input.None? {
      return Failure(InvalidRequest);
    }
    var x := input.value;
    var g := CreateBoard(db, x.name, seed);
    ghost var board := db.Snapshot();
    var created := CreatePlayers(db, g, x.players);
    AddPlayersFrame(board, g, x.players);

    assert created[0] == PlayerIdOf(g, 0);
    FinishGame(db, g, x, seed, created[0]);
    r := Success(g);
  }

  // ---------------------------------------------------------------------------
  // Well-formedness of each stage

  lemma GameWellFormed(t: Tables, name: string, seed: string)
    requires WellFormed(t)
    ensures WellFormed(t.(games := t.games[t.nextId := Game(name, "waiting", seed)], nextId := t.nextId + 1))
  {
  }

  lemma TrackWellFormed(t: Tables, g: Id)
    requires WellFormed(t) && t.nextId == g + 1
    ensures WellFormed(t.(tiles := t.tiles + TrackTiles(g), nextId := g + 21))
  {
  }

  lemma LinksWellFormed(t: Tables, g: Id)
    requires WellFormed(t) && t.nextId == g + 21
    ensures WellFormed(t.(connections := t.connections + TrackConnections(g), nextId := g + 40))
  {
  }

  lemma AddPlayerWellFormed(t: Tables, g: Id, p: PlayerInput)
    requires WellFormed(t)
    ensures WellFormed(AddPlayer(t, g, p))
  {
  }

  /** The turn, the status change and the log entry keep the store well formed. */
  lemma FinishWellFormed(t: Tables, g: Id, x: CreateGameInput, seed: string)
    requires WellFormed(t) && g < t.nextId
    ensures WellFormed(FinishStage(t, g, x, seed))
  {
    OpenTurnWellFormed(t, g, x, seed);
    LoggedWellFormed(OpenTurn(t, g, x, seed), g, "GAME_CREATED", CreatedPayload(x), Some(t.nextId), None);
  }

  lemma OpenTurnWellFormed(t: Tables, g: Id, x: CreateGameInput, seed: string)
    requires WellFormed(t) && g < t.nextId
    ensures WellFormed(OpenTurn(t, g, x, seed))
  {
  }

  // ---------------------------------------------------------------------------
  // Properties

  /** Read back after `createMany`, the new game's tiles are exactly the
      track. */
  lemma ReadBackTrack(tiles: seq<Tile>, g: Id)
    requires forall i | 0 <= i < |tiles| :: tiles[i].gameId < g
    ensures TilesOf(tiles + TrackTiles(g), g) == TrackTiles(g)
  {
    var track := TrackTiles(g);
    TrackOfGame(g);
    TilesOfAll(track, g);
    TilesOfNone(tiles, g);
    TilesOfAppend(tiles, track, g);
  }

  lemma TrackOfGame(g: Id)
    ensures forall i | 0 <= i < |TrackTiles(g)| :: TrackTiles(g)[i].gameId == g
  {
  }

  /** The track is already in ascending x, so the read-back's `orderBy`
      leaves it as it is. */
  lemma TrackAscending(g: Id)
    ensures forall i, j | 0 <= i < j < |TrackTiles(g)| :: TrackTiles(g)[i].x < TrackTiles(g)[j].x
  {
  }

  lemma {:induction false} TilesOfAppend(a: seq<Tile>, b: seq<Tile>, gameId: Id)
    ensures TilesOf(a + b, gameId) == TilesOf(a, gameId) + TilesOf(b, gameId)
    decreases |b|
  {
    if b == [] {
      assert a + b == a;
    } else {
      assert (a + b)[..|a + b| - 1] == a + b[..|b| - 1];
      TilesOfAppend(a, b[..|b| - 1], gameId);
    }
  }

  lemma {:induction false} TilesOfNone(tiles: seq<Tile>, gameId: Id)
    requires forall i | 0 <= i < |tiles| :: tiles[i].gameId != gameId
    ensures TilesOf(tiles, gameId) == []
    decreases |tiles|
  {
    if tiles != [] {
      TilesOfNone(tiles[..|tiles| - 1], gameId);
    }
  }

  lemma {:induction false} TilesOfAll(tiles: seq<Tile>, gameId: Id)
    requires forall i | 0 <= i < |tiles| :: tiles[i].gameId == gameId
    ensures TilesOf(tiles, gameId) == tiles
    decreases |tiles|
  {
    if tiles != [] {
      TilesOfAll(tiles[..|tiles| - 1], gameId);
    }
  }

  /** The players loop changes only the player, pawn and die tables and
      hands out three ids per entry. */
  lemma {:induction false} AddPlayersFrame(t: Tables, g: Id, ps: seq<PlayerInput>)
    ensures var r := AddPlayers(t, g, ps);
            r.nextId == t.nextId + 3 * |ps| &&
            r.(players := t.players, pawns := t.pawns, dice := t.dice, nextId := t.nextId) == t
    decreases |ps|
  {
    if ps != [] {
      AddPlayersFrame(t, g, ps[..|ps| - 1]);
    }
  }

  /** One D6 per entry, appended in input order. */
  lemma {:induction false} AddPlayersDice(t: Tables, g: Id, ps: seq<PlayerInput>)
    ensures AddPlayers(t, g, ps).dice == t.dice + seq(|ps|, k requires 0 <= k < |ps| =>
              Die(t.nextId + 3 * k + 2, g, t.nextId + 3 * k, "D6", D6Faces))
    decreases |ps|
  {
    if ps != [] {
      var n := |ps| - 1;
      AddPlayersDice(t, g, ps[..n]);
      AddPlayersFrame(t, g, ps[..n]);
    }
  }

  /** Every player and pawn id was handed out before `nextId`. */
  predicate KeysBelow(t: Tables) {
    (forall k | k in t.players :: k < t.nextId) && (forall k | k in t.pawns :: k < t.nextId)
  }

  /** One seat keeps every earlier player and pawn row. */
  lemma AddPlayerKeeps(t: Tables, g: Id, p: PlayerInput)
    requires KeysBelow(t)
    ensures var r := AddPlayer(t, g, p);
            && (forall k | k in t.players :: k in r.players && r.players[k] == t.players[k])
            && (forall k | k in t.pawns :: k in r.pawns && r.pawns[k] == t.pawns[k])
            && KeysBelow(r)
  {
  }

  /** Player and pawn rows present before the loop are left as they were. */
  lemma {:induction false} AddPlayersKeeps(t: Tables, g: Id, ps: seq<PlayerInput>)
    requires KeysBelow(t)
    ensures var r := AddPlayers(t, g, ps);
            && (forall k | k in t.players :: k in r.players && r.players[k] == t.players[k])
            && (forall k | k in t.pawns :: k in r.pawns && r.pawns[k] == t.pawns[k])
            && KeysBelow(r)
    decreases |ps|
  {
    if ps != [] {
      var n := |ps| - 1;
      var mid := AddPlayers(t, g, ps[..n]);
      AddPlayersKeeps(t, g, ps[..n]);
      assert KeysBelow(mid);
      AddPlayerKeeps(mid, g, ps[n]);
    }
  }

  /** Player `pid` of game `g` was seated from entry `p`, with its core pawn
      numbered right after it. */
  predicate Seated(r: Tables, g: Id, pid: Id, p: PlayerInput) {
    && pid in r.players
    && r.players[pid] == Player(g, p.nickname, p.color.GetOr(DefaultColor), true, Some(pid + 1))
    && pid + 1 in r.pawns
    && r.pawns[pid + 1] == Pawn(g, Some(pid), "core", 0, 0)
  }

  /** One seat seats its own entry and keeps earlier seats. */
  lemma AddPlayerSeats(t: Tables, g: Id, p: PlayerInput)
    requires KeysBelow(t)
    ensures Seated(AddPlayer(t, g, p), g, t.nextId, p)
    ensures forall pid, q | Seated(t, g, pid, q) :: Seated(AddPlayer(t, g, p), g, pid, q)
  {
  }

  /** Each entry's player row, pointing at its core pawn on the start tile. */
  lemma {:induction false} AddPlayersRows(t: Tables, g: Id, ps: seq<PlayerInput>)
    requires KeysBelow(t)
    ensures forall k | 0 <= k < |ps| :: Seated(AddPlayers(t, g, ps), g, t.nextId + 3 * k, ps[k])
    decreases |ps|
  {
    if ps != [] {
      var n := |ps| - 1;
      var mid := AddPlayers(t, g, ps[..n]);
      AddPlayersRows(t, g, ps[..n]);
      AddPlayersFrame(t, g, ps[..n]);
      AddPlayersKeeps(t, g, ps[..n]);
      AddPlayerSeats(mid, g, ps[n]);
      forall k | 0 <= k < |ps|
        ensures Seated(AddPlayers(t, g, ps), g, t.nextId + 3 * k, ps[k])
      {
        if k < n {
          assert ps[..n][k] == ps[k];
          assert Seated(mid, g, t.nextId + 3 * k, ps[k]);
        }
      }
    }
  }

  /** No player or pawn row appears besides the new ones. */
  lemma {:induction false} AddPlayersKeys(t: Tables, g: Id, ps: seq<PlayerInput>)
    ensures var r := AddPlayers(t, g, ps);
            && (forall k | k in r.players :: k in t.players || exists j | 0 <= j < |ps| :: k == t.nextId + 3 * j)
            && (forall k | k in r.pawns :: k in t.pawns || exists j | 0 <= j < |ps| :: k == t.nextId + 3 * j + 1)
    decreases |ps|
  {
    if ps != [] {
      var n := |ps| - 1;
      AddPlayersKeys(t, g, ps[..n]);
      AddPlayersFrame(t, g, ps[..n]);
    }
  }

  // ---------------------------------------------------------------------------
  // What an accepted creation leaves in the store

  /** Where every row of the transaction lands, and the ids it hands out:
      the game takes `nextId`, the tiles the next 20, the links the next 19,
      each player three (player, pawn, die), then the turn and the event. */
  lemma CreateGameLayout(t: Tables, x: CreateGameInput, seed: string)
    ensures var g := t.nextId;
            var n := |x.players|;
            var r := CreateGameSpec(t, x, seed);
            var seated := AddPlayers(BoardStage(t, x.name, seed), g, x.players);
            && r.games == t.games[g := Game(x.name, "running", seed)]
            && r.tiles == t.tiles + TrackTiles(g)
            && r.connections == t.connections + TrackConnections(g)
            && r.players == seated.players && r.pawns == seated.pawns && r.dice == seated.dice
            && r.turns == t.turns + [Turn(g + 40 + 3 * n, g, 1, PlayerIdOf(g, 0))]
            && r.rules == t.rules
            && r.events == t.events + [Event(g + 41 + 3 * n, g, Some(g + 40 + 3 * n), None, "GAME_CREATED", CreatedPayload(x))]
            && r.nextId == g + 42 + 3 * n
  {
    AddPlayersFrame(BoardStage(t, x.name, seed), t.nextId, x.players);
  }

  /** The new game's board: 20 tiles in a row at y = 0, x from 0 to 19, the
      first a start tile, the last the goal tagged "arrival", the rest
      neutral; tiles of other games are kept. */
  lemma CreateGameTrack(t: Tables, x: CreateGameInput, seed: string)
    requires WellFormed(t)
    ensures var g := t.nextId;
            var r := CreateGameSpec(t, x, seed);
            var track := TilesOf(r.tiles, g);
            && |r.tiles| == |t.tiles| + 20 && r.tiles[..|t.tiles|] == t.tiles
            && |track| == 20
            && (forall i | 0 <= i < 20 :: track[i].gameId == g && track[i].x == i && track[i].y == 0)
            && track[0].preset == "start" && track[0].tags == []
            && track[19].preset == "goal" && track[19].tags == ["arrival"]
            && (forall i | 0 < i < 19 :: track[i].preset == "neutral" && track[i].tags == [])
  {
    CreateGameLayout(t, x, seed);
    ReadBackTrack(t.tiles, t.nextId);
    assert (t.tiles + TrackTiles(t.nextId))[..|t.tiles|] == t.tiles;
  }

  /** The new game's links: 19 bidirectional connections, the i-th from the
      tile at x = i to the tile at x = i + 1. */
  lemma CreateGameLinks(t: Tables, x: CreateGameInput, seed: string)
    requires WellFormed(t)
    ensures var g := t.nextId;
            var r := CreateGameSpec(t, x, seed);
            var track := TilesOf(r.tiles, g);
            var links := if |r.connections| >= |t.connections| then r.connections[|t.connections|..] else [];
            && |r.connections| == |t.connections| + 19
            && r.connections[..|t.connections|] == t.connections
            && |links| == 19 && |track| == 20
            && (forall i | 0 <= i < 19 ::
                  && links[i].gameId == g && links[i].bidir
                  && links[i].fromTileId == track[i].id && links[i].toTileId == track[i + 1].id)
  {
    CreateGameLayout(t, x, seed);
    ReadBackTrack(t.tiles, t.nextId);
    var c := t.connections + TrackConnections(t.nextId);
    assert c[..|t.connections|] == t.connections;
    assert c[|t.connections|..] == TrackConnections(t.nextId);
  }

  /** Each requested player, in request order: active, with its color or the
      default grey, and a main pawn of kind "core" at (0, 0) that it owns. */
  lemma CreateGamePlayers(t: Tables, x: CreateGameInput, seed: string)
    requires WellFormed(t)
    ensures var g := t.nextId;
            var r := CreateGameSpec(t, x, seed);
            forall k | 0 <= k < |x.players| ::
              var p := x.players[k];
              && PlayerIdOf(g, k) in r.players
              && r.players[PlayerIdOf(g, k)].gameId == g
              && r.players[PlayerIdOf(g, k)].nickname == p.nickname
              && r.players[PlayerIdOf(g, k)].color == (if p.color.Some? then p.color.value else "#cccccc")
              && r.players[PlayerIdOf(g, k)].isActive
              && r.players[PlayerIdOf(g, k)].mainPawnId.Some?
              && r.players[PlayerIdOf(g, k)].mainPawnId.value in r.pawns
              && r.pawns[r.players[PlayerIdOf(g, k)].mainPawnId.value] == Pawn(g, Some(PlayerIdOf(g, k)), "core", 0, 0)
  {
    var b := BoardStage(t, x.name, seed);
    var r := CreateGameSpec(t, x, seed);
    CreateGameLayout(t, x, seed);
    AddPlayersRows(b, t.nextId, x.players);
    forall k | 0 <= k < |x.players|
      ensures Seated(r, t.nextId, PlayerIdOf(t.nextId, k), x.players[k])
    {
      assert b.nextId + 3 * k == PlayerIdOf(t.nextId, k);
    }
  }

  /** Player and pawn rows of other games stay as they were, and the only
      new ones are the seated players and their pawns. */
  lemma CreateGameOnlySeats(t: Tables, x: CreateGameInput, seed: string)
    requires WellFormed(t)
    ensures var g := t.nextId;
            var r := CreateGameSpec(t, x, seed);
            && (forall k | k in t.players :: k in r.players && r.players[k] == t.players[k])
            && (forall k | k in t.pawns :: k in r.pawns && r.pawns[k] == t.pawns[k])
            && (forall k | k in r.players :: k in t.players || exists j | 0 <= j < |x.players| :: k == PlayerIdOf(g, j))
            && (forall k | k in r.pawns :: k in t.pawns || exists j | 0 <= j < |x.players| :: k == PlayerIdOf(g, j) + 1)
  {
    var b := BoardStage(t, x.name, seed);
    CreateGameLayout(t, x, seed);
    AddPlayersKeeps(b, t.nextId, x.players);
    AddPlayersKeys(b, t.nextId, x.players);
    var r := CreateGameSpec(t, x, seed);
    forall k | k in r.players && k !in t.players
      ensures exists j | 0 <= j < |x.players| :: k == PlayerIdOf(t.nextId, j)
    {
      var j :| 0 <= j < |x.players| && k == b.nextId + 3 * j;
      assert k == PlayerIdOf(t.nextId, j);
    }
    forall k | k in r.pawns && k !in t.pawns
      ensures exists j | 0 <= j < |x.players| :: k == PlayerIdOf(t.nextId, j) + 1
    {
      var j :| 0 <= j < |x.players| && k == b.nextId + 3 * j + 1;
      assert k == PlayerIdOf(t.nextId, j) + 1;
    }
  }

  /** One six-sided die labelled "D6" per player, in request order. */
  lemma CreateGameDice(t: Tables, x: CreateGameInput, seed: string)
    ensures var g := t.nextId;
            var r := CreateGameSpec(t, x, seed);
            var dice := if |r.dice| >= |t.dice| then r.dice[|t.dice|..] else [];
            && |r.dice| == |t.dice| + |x.players|
            && r.dice[..|t.dice|] == t.dice
            && |dice| == |x.players|
            && (forall k | 0 <= k < |x.players| ::
                  dice[k].gameId == g && dice[k].ownerPlayerId == PlayerIdOf(g, k)
                  && dice[k].dieLabel == "D6" && dice[k].faces == [1, 2, 3, 4, 5, 6])
  {
    var b := BoardStage(t, x.name, seed);
    CreateGameLayout(t, x, seed);
    AddPlayersDice(b, t.nextId, x.players);
    var d := AddPlayers(b, t.nextId, x.players).dice;
    assert d[..|t.dice|] == t.dice;
  }

  /** Turn 1 is opened for the new game with the first requested player to
      play, the game is running, and no other game changes. */
  lemma CreateGameTurn(t: Tables, x: CreateGameInput, seed: string)
    requires WellFormed(t) && ValidCreateGame(x)
    ensures var g := t.nextId;
            var r := CreateGameSpec(t, x, seed);
            var turn := r.turns[|r.turns| - 1];
            && |r.turns| == |t.turns| + 1 && r.turns[..|t.turns|] == t.turns
            && turn.gameId == g && turn.index == 1
            && turn.currentPlayerId in r.players
            && r.players[turn.currentPlayerId].gameId == g
            && r.players[turn.currentPlayerId].nickname == x.players[0].nickname
            && g !in t.games && g in r.games && r.games[g].status == "running"
            && r.games[g].name == x.name && r.games[g].seed == seed
            && (forall k | k in t.games :: k in r.games && r.games[k] == t.games[k])
            && r.games.Keys == t.games.Keys + {g}
  {
    CreateGameLayout(t, x, seed);
    CreateGamePlayers(t, x, seed);
    var u := t.turns + [Turn(t.nextId + 40 + 3 * |x.players|, t.nextId, 1, PlayerIdOf(t.nextId, 0))];
    assert u[..|t.turns|] == t.turns;
  }

  /** The transaction logs exactly one event: GAME_CREATED for the new game,
      attached to turn 1, with the game's name and the nicknames in order. */
  lemma CreateGameLogged(t: Tables, x: CreateGameInput, seed: string)
    ensures var g := t.nextId;
            var r := CreateGameSpec(t, x, seed);
            var e := r.events[|r.events| - 1];
            && |r.events| == |t.events| + 1 && r.events[..|t.events|] == t.events
            && e.gameId == g && e.kind == "GAME_CREATED" && e.actorId.None?
            && e.turnId == Some(r.turns[|r.turns| - 1].id)
            && Get(e.payload, "name") == Str(x.name)
            && Get(e.payload, "players").Arr?
            && |Get(e.payload, "players").items| == |x.players|
            && (forall k | 0 <= k < |x.players| :: Get(e.payload, "players").items[k] == Str(x.players[k].nickname))
  {
    CreateGameLayout(t, x, seed);
  }

  /** The transaction keeps the store well formed. */
  lemma {:induction false} CreateGameWellFormed(t: Tables, x: CreateGameInput, seed: string)
    requires WellFormed(t)
    ensures WellFormed(CreateGameSpec(t, x, seed))
  {
    var g := t.nextId;
    var t1 := t.(games := t.games[g := Game(x.name, "waiting", seed)], nextId := g + 1);
    GameWellFormed(t, x.name, seed);
    var t2 := t1.(tiles := t1.tiles + TrackTiles(g), nextId := g + 21);
    TrackWellFormed(t1, g);
    LinksWellFormed(t2, g);
    var b := BoardStage(t, x.name, seed);
    assert b == t2.(connections := t2.connections + TrackConnections(g), nextId := g + 40);
    AddPlayersWellFormed(b, g, x.players);
    AddPlayersFrame(b, g, x.players);
    FinishWellFormed(AddPlayers(b, g, x.players), g, x, seed);
  }

  lemma {:induction false} AddPlayersWellFormed(t: Tables, g: Id, ps: seq<PlayerInput>)
    requires WellFormed(t)
    ensures WellFormed(AddPlayers(t, g, ps))
    decreases |ps|
  {
    if ps != [] {
      AddPlayersWellFormed(t, g, ps[..|ps| - 1]);
      AddPlayerWellFormed(AddPlayers(t, g, ps[..|ps| - 1]), g, ps[|ps| - 1]);
    }
  }
}
