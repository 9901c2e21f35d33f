/** The relational store the engine writes through (the transaction client):
    one field per table, rows as values, and one counter that hands out row
    identifiers in creation order. */
module Store {
  import opened EngineTypes
  import opened Json
  import opened Conditions

  datatype Game = Game(name: string, status: string, seed: string)
  datatype Tile = Tile(id: Id, gameId: Id, x: int, y: int, preset: string, tags: seq<string>)
  datatype Connection = Connection(id: Id, gameId: Id, fromTileId: Id, toTileId: Id, bidir: bool)
  datatype Player = Player(gameId: Id, nickname: string, color: string, isActive: bool, mainPawnId: Option<Id>)
  datatype Pawn = Pawn(gameId: Id, ownerPlayerId: Option<Id>, kind: string, x: int, y: int)
  datatype Die = Die(id: Id, gameId: Id, ownerPlayerId: Id, dieLabel: string, faces: seq<int>)
  datatype Turn = Turn(id: Id, gameId: Id, index: int, currentPlayerId: Id)

  /** The `effects` JSON column: normally a list, sometimes a single effect. */
  datatype StoredEffects = EffectList(items: seq<Effect>) | SingleEffect(item: Effect)

  /** A row of the rule table. `None` is a null column. */
  datatype RuleRow = RuleRow(
    id: Id, gameId: Id, scope: string, trigger: Trigger, conditions: Cond,
    effects: StoredEffects, priority: Option<int>, specificity: Option<int>,
    enabled: bool, createdAt: int)

  /** A row of the event log. `None` is a null column. */
  datatype Event = Event(id: Id, gameId: Id, turnId: Option<Id>, actorId: Option<Id>, kind: string, payload: Value)

  /** The content of every table at one moment. */
  datatype Tables = Tables(
    games: map<Id, Game>,
    tiles: seq<Tile>,
    connections: seq<Connection>,
    players: map<Id, Player>,
    pawns: map<Id, Pawn>,
    dice: seq<Die>,
    turns: seq<Turn>,
    rules: seq<RuleRow>,
    events: seq<Event>,
    nextId: nat)

  /** Every identifier in use, and every game a tile refers to, was handed out
      before `nextId`; rules are stored in creation order. */
  ghost predicate WellFormed(t: Tables) {
    && (forall k | k in t.games :: k < t.nextId)
    && (forall i | 0 <= i < |t.tiles| :: t.tiles[i].id < t.nextId && t.tiles[i].gameId < t.nextId)
    && (forall i | 0 <= i < |t.connections| :: t.connections[i].id < t.nextId)
    && (forall k | k in t.players :: k < t.nextId)
    && (forall k | k in t.pawns :: k < t.nextId)
    && (forall i | 0 <= i < |t.dice| :: t.dice[i].id < t.nextId)
    && (forall i | 0 <= i < |t.turns| :: t.turns[i].id < t.nextId)
    && (forall i | 0 <= i < |t.rules| :: t.rules[i].id < t.nextId)
    && (forall i | 0 <= i < |t.events| :: t.events[i].id < t.nextId)
    && (forall i, j | 0 <= i < j < |t.rules| :: t.rules[i].createdAt <= t.rules[j].createdAt)
  }

  /** The store. Its methods live in the modules of the engine that write it. */
  class Db {
    var games: map<Id, Game>
    var tiles: seq<Tile>
    var connections: seq<Connection>
    var players: map<Id, Player>
    var pawns: map<Id, Pawn>
    var dice: seq<Die>
    var turns: seq<Turn>
    var rules: seq<RuleRow>
    var events: seq<Event>
    var nextId: nat

    function Snapshot(): Tables
      reads this
    {
      Tables(games, tiles, connections, players, pawns, dice, turns, rules, events, nextId)
    }

    ghost predicate Valid()
      reads this
    {
      WellFormed(Snapshot())
    }

    constructor ()
      ensures Valid()
      ensures Snapshot() == Tables(map[], [], [], map[], map[], [], [], [], [], 0)
    {
      games, tiles, connections := map[], [], [];
      players, pawns, dice, turns := map[], map[], [], [];
      rules, events, nextId := [], [], 0;
    }
  }
}
