/** The post-move pipeline: the enter-tile rules, then the after-move rules,
    for the tile under the player's core pawn. */
module Tiles {
  import opened EngineTypes
  import opened Json
  import opened Store
  import opened Rules
  import opened Effects

  /** `tx.tile.findFirst({ gameId, x, y })`: the first tile of the game at (x, y). */
  function TileAt(tiles: seq<Tile>, gameId: Id, x: int, y: int): (r: Option<Id>)
    ensures r.Some? ==> exists i | 0 <= i < |tiles| ::
              && tiles[i].id == r.value && tiles[i].gameId == gameId && tiles[i].x == x && tiles[i].y == y
              && forall j | 0 <= j < i :: !(tiles[j].gameId == gameId && tiles[j].x == x && tiles[j].y == y)
    ensures r.None? ==> forall i | 0 <= i < |tiles| :: !(tiles[i].gameId == gameId && tiles[i].x == x && tiles[i].y == y)
  {
    if tiles == [] then None
    else if tiles[0].gameId == gameId && tiles[0].x == x && tiles[0].y == y then Some(tiles[0].id)
    else
      var rest := TileAt(tiles[1..], gameId, x, y);
      assert forall j | 1 <= j < |tiles| :: tiles[j] == tiles[1..][j - 1];
      assert rest.Some? ==> exists i | 0 <= i < |tiles[1..]| ::
        && tiles[1..][i].id == rest.value && tiles[1..][i].gameId == gameId && tiles[1..][i].x == x && tiles[1..][i].y == y
        && forall j | 0 <= j < i :: !(tiles[1..][j].gameId == gameId && tiles[1..][j].x == x && tiles[1..][j].y == y);
      rest
  }

  /** `rules.flatMap(r => r.effects)`. */
  function Flatten(rs: seq<Rule>): seq<Effect>
    decreases |rs|
  {
    if rs == [] then [] else Flatten(rs[..|rs| - 1]) + rs[|rs| - 1].effects
  }

  lemma {:induction false} FlattenAppend(a: seq<Rule>, b: seq<Rule>)
    ensures Flatten(a + b) == Flatten(a) + Flatten(b)
    decreases |b|
  {
    if b == [] {
      assert a + b == a;
    } else {
      assert (a + b)[..|a + b| - 1] == a + b[..|b| - 1];
      FlattenAppend(a, b[..|b| - 1]);
    }
  }

  /** Effects run in rule order, and each rule's effects in their list order. */
  lemma FlattenOrder(rs: seq<Rule>, i: nat)
    requires i < |rs|
    ensures Flatten(rs) == Flatten(rs[..i]) + rs[i].effects + Flatten(rs[i + 1..])
  {
    var head := rs[..i + 1];
    assert head[..i] == rs[..i];
    assert Flatten(head) == Flatten(rs[..i]) + rs[i].effects;
    assert head + rs[i + 1..] == rs;
    FlattenAppend(head, rs[i + 1..]);
  }

  /** One `applyEffects` phase for a player whose core pawn exists: it never
      fails, keeps the core pawn, and changes only what `Frame` allows. */
  function Phase(t: Tables, c: Call, es: seq<Effect>): (r: Applied)
    requires MainPawn(t, c.playerId).Success?
    ensures ApplyEffectsSpec(t, c, es) == Success(r)
    ensures MainPawn(r.tables, c.playerId) == MainPawn(t, c.playerId)
    ensures Frame(t, r.tables)
  {
    ApplyEffectsResult(t, c, es);
    ApplyEffectsSpec(t, c, es).value
  }

  /** The rules of one trigger for the tile, flattened into their effects. */
  function PhaseEffects(rows: seq<RuleRow>, gameId: Id, trigger: Trigger, ctx: Value): seq<Effect> {
    Flatten(ApplicableRules(rows, gameId, trigger, ctx))
  }

  /** `applyTileEffectsAfterMove(tx, gameId, turnId, playerId)`. The rule table
      and the evaluation context are read outside the transaction, so both
      phases see the committed state: `context` gives the context for a tile. */
  function AfterMoveSpec(t: Tables, c: Call, context: Option<Id> -> Value): (r: Applied)
    ensures MainPawn(t, c.playerId).Failure? ==> r == Applied(t, None)
    ensures Frame(t, r.tables)
  {
    if MainPawn(t, c.playerId).Failure? then Applied(t, None)
    else
      var pawn := t.pawns[MainPawn(t, c.playerId).value];
      var ctx := context(TileAt(t.tiles, c.gameId, pawn.x, pawn.y));
      var r1 := Phase(t, c, PhaseEffects(t.rules, c.gameId, OnEnterTile, ctx));
      var r2 := Phase(r1.tables, c, PhaseEffects(t.rules, c.gameId, TurnAfterMove, ctx));
      FrameTrans(t, r1.tables, r2.tables);
      Applied(r2.tables, if r2.finalPos.Some? then r2.finalPos else r1.finalPos)
  }

  /** `applyTileEffectsAfterMove` against the store. */
  method ApplyTileEffectsAfterMove(db: Db, gameId: Id, turnId: Id, playerId: Id, context: Option<Id> -> Value)
    returns (finalPos: Option<Pos>)
    requires db.Valid()
    modifies db
    ensures db.Valid()
    ensures Applied(db.Snapshot(), finalPos) == AfterMoveSpec(old(db.Snapshot()), Call(gameId, turnId, playerId), context)
  {
    ghost var t := db.Snapshot();
    var c := Call(gameId, turnId, playerId);
    var found := MainPawn(db.Snapshot(), playerId);
    if found.Failure? {
      return None;
    }
    var pawn := db.pawns[found.value];
    var tileId := TileAt(db.tiles, gameId, pawn.x, pawn.y);
    var ctx := context(tileId);
    var rules := db.rules;

    var rulesEnter := GetApplicableRules(rules, gameId, OnEnterTile, ctx);
    var result := ApplyEffects(db, gameId, turnId, playerId, Flatten(rulesEnter));
    ghost var r1 := Phase(t, c, PhaseEffects(t.rules, gameId, OnEnterTile, ctx));
    assert db.Snapshot() == r1.tables;

    var rulesAfter := GetApplicableRules(rules, gameId, TurnAfterMove, ctx);
    var res2 := ApplyEffects(db, gameId, turnId, playerId, Flatten(rulesAfter));
    ghost var r2 := Phase(r1.tables, c, PhaseEffects(t.rules, gameId, TurnAfterMove, ctx));

    var p1 := if result.Success? then result.value else None;
    var p2 := if res2.Success? then res2.value else None;
    finalPos := if p2.Some? then p2 else p1;
  }

  // ---------------------------------------------------------------------------
  // Properties of the pipeline

  lemma StepIgnoresFlag(a: Applier, e: Effect, c: Call)
    ensures Step(a.(posChanged := true), e, c) == Step(a, e, c).(posChanged := true)
  {
    match e {
      case Ignored =>
      case MoveDelta(_) =>
      case DiceSet(_, _) =>
      case VictoryDeclare(_) =>
    }
  }

  /** The flag only records; a run that starts with it set ends in the same
      store and pawn. */
  lemma {:induction false} RunIgnoresFlag(a: Applier, es: seq<Effect>, c: Call)
    ensures Run(a.(posChanged := true), es, c) == Run(a, es, c).(posChanged := true)
    decreases |es|
  {
    if es != [] {
      RunIgnoresFlag(a, es[..|es| - 1], c);
      StepIgnoresFlag(Run(a, es[..|es| - 1], c), es[|es| - 1], c);
    }
  }

  /** The phase state after one run, with the flag cleared. */
  lemma RestartFlag(a: Applier, es: seq<Effect>, ys: seq<Effect>, c: Call)
    ensures Run(Run(a, es, c).(posChanged := false), ys, c).tables == Run(Run(a, es, c), ys, c).tables
    ensures Run(Run(a, es, c).(posChanged := false), ys, c).pawn == Run(Run(a, es, c), ys, c).pawn
  {
    var b := Run(a, es, c);
    if b.posChanged {
      RunIgnoresFlag(b.(posChanged := false), ys, c);
      assert b.(posChanged := false).(posChanged := true) == b;
    } else {
      assert b.(posChanged := false) == b;
    }
  }

  /** Both phases together are one run of the enter-tile effects followed by
      the after-move effects, from the pawn as stored. */
  lemma {:induction false} AfterMoveIsOneRun(t: Tables, c: Call, context: Option<Id> -> Value)
    requires MainPawn(t, c.playerId).Success?
    ensures var pawnId := MainPawn(t, c.playerId).value;
            var pawn := t.pawns[pawnId];
            var ctx := context(TileAt(t.tiles, c.gameId, pawn.x, pawn.y));
            var enter := PhaseEffects(t.rules, c.gameId, OnEnterTile, ctx);
            var after := PhaseEffects(t.rules, c.gameId, TurnAfterMove, ctx);
            AfterMoveSpec(t, c, context).tables == Run(Applier(t, pawnId, pawn, false), enter + after, c).tables
  {
    var pawnId := MainPawn(t, c.playerId).value;
    var pawn := t.pawns[pawnId];
    var ctx := context(TileAt(t.tiles, c.gameId, pawn.x, pawn.y));
    var enter := PhaseEffects(t.rules, c.gameId, OnEnterTile, ctx);
    var after := PhaseEffects(t.rules, c.gameId, TurnAfterMove, ctx);
    var a := Applier(t, pawnId, pawn, false);
    var r1 := Phase(t, c, enter);
    RunFrame(a, enter, c);
    RunAppend(a, enter, after, c);
    var b := Run(a, enter, c);
    if enter != [] {
      assert r1.tables == b.tables;
      // the second phase starts from the stored pawn, which is the first phase's local copy
      assert Applier(r1.tables, pawnId, r1.tables.pawns[pawnId], false) == b.(posChanged := false);
      RestartFlag(a, enter, after, c);
    } else {
      assert enter + after == after;
    }
  }

  /** The returned position, when present, is where the pawn is stored at
      the end; when absent, the pawn row is as it was. */
  lemma AfterMoveFinalPos(t: Tables, c: Call, context: Option<Id> -> Value)
    requires MainPawn(t, c.playerId).Success?
    ensures var pawnId := MainPawn(t, c.playerId).value;
            var r := AfterMoveSpec(t, c, context);
            && (r.finalPos.Some? ==> r.tables.pawns[pawnId].x == r.finalPos.value.x
                                     && r.tables.pawns[pawnId].y == r.finalPos.value.y)
            && (r.finalPos.None? ==> r.tables.pawns[pawnId] == t.pawns[pawnId])
  {
    var pawnId := MainPawn(t, c.playerId).value;
    var pawn := t.pawns[pawnId];
    var ctx := context(TileAt(t.tiles, c.gameId, pawn.x, pawn.y));
    var enter := PhaseEffects(t.rules, c.gameId, OnEnterTile, ctx);
    var after := PhaseEffects(t.rules, c.gameId, TurnAfterMove, ctx);
    var r1 := Phase(t, c, enter);
    PhasePawn(t, c, enter);
    PhasePawn(r1.tables, c, after);
  }

  /** One phase: a returned position is where the core pawn is stored, and
      no position means the pawn row is untouched. */
  lemma PhasePawn(t: Tables, c: Call, es: seq<Effect>)
    requires MainPawn(t, c.playerId).Success?
    ensures var pawnId := MainPawn(t, c.playerId).value;
            var r := Phase(t, c, es);
            && pawnId in r.tables.pawns
            && (r.finalPos.Some? ==> r.tables.pawns[pawnId].x == r.finalPos.value.x
                                     && r.tables.pawns[pawnId].y == r.finalPos.value.y)
            && (r.finalPos.None? ==> r.tables.pawns[pawnId] == t.pawns[pawnId])
  {
    ApplyEffectsResult(t, c, es);
  }
}
