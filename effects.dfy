/** The effect applier: runs a rule's effect list in order against the store
    and logs what each effect did. */
module Effects {
  import opened EngineTypes
  import opened Json
  import opened Store
  import Events

  datatype Pos = Pos(x: int, y: int)

  /** The game, turn and player an effect list is applied for. */
  datatype Call = Call(gameId: Id, turnId: Id, playerId: Id)

  /** `getMainPawn(tx, playerId)`: the id of the player's core pawn. */
  function MainPawn(t: Tables, playerId: Id): (r: Result<Id>)
    ensures r.Success? <==> playerId in t.players && t.players[playerId].mainPawnId.Some?
                            && t.players[playerId].mainPawnId.value in t.pawns
    ensures r.Success? ==> r.value == t.players[playerId].mainPawnId.value && r.value in t.pawns
    ensures r == Failure(CorePawnMissing) <==> playerId !in t.players || t.players[playerId].mainPawnId.None?
  {
    if playerId !in t.players || t.players[playerId].mainPawnId.None? then Failure(CorePawnMissing)
    else if t.players[playerId].mainPawnId.value !in t.pawns then Failure(CorePawnNotFound)
    else Success(t.players[playerId].mainPawnId.value)
  }

  predicate HasTileIn(tiles: seq<Tile>, gameId: Id) {
    exists i | 0 <= i < |tiles| :: tiles[i].gameId == gameId
  }

  /** The largest x of the game's tiles, if it has any. */
  function MaxTileX(tiles: seq<Tile>, gameId: Id): (r: Option<int>)
    ensures r.Some? <==> HasTileIn(tiles, gameId)
    ensures r.Some? ==> exists i | 0 <= i < |tiles| :: tiles[i].gameId == gameId && tiles[i].x == r.value
    ensures r.Some? ==> forall i | 0 <= i < |tiles| && tiles[i].gameId == gameId :: tiles[i].x <= r.value
  {
    if tiles == [] then None
    else
      var rest := MaxTileX(tiles[1..], gameId);
      assert forall i | 1 <= i < |tiles| :: tiles[i] == tiles[1..][i - 1];
      if tiles[0].gameId != gameId then rest
      else if rest.None? || tiles[0].x >= rest.value then Some(tiles[0].x)
      else rest
  }

  /** `getTrackMaxX(tx, gameId)`: the largest tile x, 19 when the game has no tile. */
  function TrackMaxX(tiles: seq<Tile>, gameId: Id): (m: int)
    ensures !HasTileIn(tiles, gameId) ==> m == 19
    ensures HasTileIn(tiles, gameId) ==>
              (exists i | 0 <= i < |tiles| :: tiles[i].gameId == gameId && tiles[i].x == m) &&
              (forall i | 0 <= i < |tiles| && tiles[i].gameId == gameId :: tiles[i].x <= m)
  {
    MaxTileX(tiles, gameId).GetOr(19)
  }

  /** `tx.die.findFirst({ gameId, ownerPlayerId })`: the position of the
      player's first die in the table. */
  function FirstDie(dice: seq<Die>, gameId: Id, playerId: Id): (r: Option<nat>)
    ensures r.Some? ==> r.value < |dice| && dice[r.value].gameId == gameId && dice[r.value].ownerPlayerId == playerId
    ensures r.Some? ==> forall j | 0 <= j < r.value :: !(dice[j].gameId == gameId && dice[j].ownerPlayerId == playerId)
    ensures r.None? ==> forall j | 0 <= j < |dice| :: !(dice[j].gameId == gameId && dice[j].ownerPlayerId == playerId)
  {
    if dice == [] then None
    else if dice[0].gameId == gameId && dice[0].ownerPlayerId == playerId then Some(0)
    else
      var rest := FirstDie(dice[1..], gameId, playerId);
      assert forall j | 1 <= j < |dice| :: dice[j] == dice[1..][j - 1];
      if rest.Some? then Some(rest.value + 1) else None
  }

  /** `Math.max(0, Math.min(x, maxX))`. */
  function Clamp(x: int, maxX: int): int {
    if x < maxX then (if x < 0 then 0 else x) else (if maxX < 0 then 0 else maxX)
  }

  function PosValue(p: Pos): Value {
    Obj(map["x" := Num(p.x), "y" := Num(p.y)])
  }

  /** An object literal whose field is left out when its value is undefined. */
  function WithField(m: map<string, Value>, key: string, v: Option<Value>): map<string, Value> {
    if v.Some? then m[key := v.value] else m
  }

  function FacesValue(faces: seq<int>): Value {
    Arr(seq(|faces|, i requires 0 <= i < |faces| => Num(faces[i])))
  }

  /** The applier's threaded state: the store, the core pawn (its id and the
      local copy the loop keeps) and whether some effect moved it. */
  datatype Applier = Applier(tables: Tables, pawnId: Id, pawn: Pawn, posChanged: bool)

  /** The position a `move.delta` leads to. */
  function MoveTarget(pawn: Pawn, steps: Option<int>, maxX: int): int {
    Clamp(pawn.x + steps.GetOr(0), maxX)
  }

  /** Whether applying `eff` in state `a` changes the pawn's position. */
  predicate Moves(a: Applier, eff: Effect, c: Call) {
    eff.MoveDelta? && MoveTarget(a.pawn, eff.steps, TrackMaxX(a.tables.tiles, c.gameId)) != a.pawn.x
  }

  /** One iteration of the effect loop. */
  function Step(a: Applier, eff: Effect, c: Call): Applier {
    match eff
    case Ignored => a
    case MoveDelta(steps) =>
      var from := Pos(a.pawn.x, a.pawn.y);
      var to := Pos(MoveTarget(a.pawn, steps, TrackMaxX(a.tables.tiles, c.gameId)), from.y);
      var moved := to.x != from.x;
      var pawn := if moved then a.pawn.(x := to.x, y := to.y) else a.pawn;
      var t := if moved then a.tables.(pawns := a.tables.pawns[a.pawnId := pawn]) else a.tables;
      var payload := Obj(map["playerId" := Num(c.playerId), "pawnId" := Num(a.pawnId),
                             "steps" := Num(steps.GetOr(0)), "from" := PosValue(from), "to" := PosValue(to)]);
      Applier(Events.Logged(t, c.gameId, "EFFECT_MOVE_DELTA", payload, Some(c.turnId), Some(c.playerId)),
              a.pawnId, pawn, a.posChanged || moved)
    case DiceSet(faces, newLabel) =>
      (match FirstDie(a.tables.dice, c.gameId, c.playerId)
      case None => a
      case Some(k) =>
        var die := a.tables.dice[k];
        var updated := die.(faces := faces.GetOr(die.faces), dieLabel := newLabel.GetOr(die.dieLabel));
        var t := a.tables.(dice := a.tables.dice[k := updated]);
        var payload := Obj(WithField(WithField(map["playerId" := Num(c.playerId), "dieId" := Num(die.id)],
                                               "faces", if faces.Some? then Some(FacesValue(faces.value)) else None),
                                     "label", if newLabel.Some? then Some(Str(newLabel.value)) else None));
        a.(tables := Events.Logged(t, c.gameId, "EFFECT_DICE_SET", payload, Some(c.turnId), Some(c.playerId))))
    case VictoryDeclare(message) =>
      var players := a.tables.players;
      // the player row exists: it was read when the core pawn was looked up
      var t := if c.playerId in players
               then a.tables.(players := players[c.playerId := players[c.playerId].(isActive := false)])
               else a.tables;
      var payload := Obj(map["playerId" := Num(c.playerId), "message" := Str(message.GetOr("Victoire !"))]);
      a.(tables := Events.Logged(t, c.gameId, "VICTORY_DECLARE", payload, Some(c.turnId), Some(c.playerId)))
  }

  /** The loop over the first |es| effects. */
  function Run(a: Applier, es: seq<Effect>, c: Call): Applier
    decreases |es|
  {
    if es == [] then a else Step(Run(a, es[..|es| - 1], c), es[|es| - 1], c)
  }

  datatype Applied = Applied(tables: Tables, finalPos: Option<Pos>)

  /** `applyEffects(tx, gameId, turnId, playerId, effects)`: the new store
      and the returned `finalPos`, or the error it throws. */
  function ApplyEffectsSpec(t: Tables, c: Call, es: seq<Effect>): (r: Result<Applied>)
    ensures es == [] ==> r == Success(Applied(t, None))
    ensures es != [] ==> (r.Success? <==> MainPawn(t, c.playerId).Success?)
    ensures r.Failure? ==> MainPawn(t, c.playerId) == Failure(r.error)
  {
    if es == [] then Success(Applied(t, None))
    else match MainPawn(t, c.playerId)
      case Failure(e) => Failure(e)
      case Success(pawnId) =>
        var a := Run(Applier(t, pawnId, t.pawns[pawnId], false), es, c);
        Success(Applied(a.tables, if a.posChanged then Some(Pos(a.pawn.x, a.pawn.y)) else None))
  }

  /** The `move.delta` branch of the loop. */
  method ApplyMove(db: Db, c: Call, pawnId: Id, pawn: Pawn, posChanged: bool, steps: Option<int>)
    returns (pawn': Pawn, posChanged': bool)
    requires db.Valid() && pawnId in db.pawns
    modifies db
    ensures db.Valid() && pawnId in db.pawns && db.players.Keys == old(db.players.Keys)
    ensures Applier(db.Snapshot(), pawnId, pawn', posChanged')
            == Step(Applier(old(db.Snapshot()), pawnId, pawn, posChanged), MoveDelta(steps), c)
  {
    ghost var t := db.Snapshot();
    var maxX := TrackMaxX(db.tiles, c.gameId);
    var from := Pos(pawn.x, pawn.y);
    var to := Pos(Clamp(from.x + steps.GetOr(0), maxX), from.y);
    assert to.x == MoveTarget(pawn, steps, TrackMaxX(t.tiles, c.gameId));
    pawn', posChanged' := pawn, posChanged;
    if to.x != from.x || to.y != from.y {
      pawn' := pawn.(x := to.x, y := to.y);
      db.pawns := db.pawns[pawnId := pawn'];
      posChanged' := true;
    }
    assert db.Snapshot() == if to.x != from.x then t.(pawns := t.pawns[pawnId := pawn']) else t;
    var payload := Obj(map["playerId" := Num(c.playerId), "pawnId" := Num(pawnId),
                           "steps" := Num(steps.GetOr(0)), "from" := PosValue(from), "to" := PosValue(to)]);
    var _ := Events.LogEvent(db, c.gameId, "EFFECT_MOVE_DELTA", payload, Some(c.turnId), Some(c.playerId));
  }

  /** The `dice.set` branch of the loop. */
  method ApplyDice(db: Db, c: Call, pawnId: Id, pawn: Pawn, posChanged: bool,
                   faces: Option<seq<int>>, newLabel: Option<string>)
    requires db.Valid()
    modifies db
    ensures db.Valid() && db.pawns == old(db.pawns) && db.players == old(db.players)
    ensures Applier(db.Snapshot(), pawnId, pawn, posChanged)
            == Step(Applier(old(db.Snapshot()), pawnId, pawn, posChanged), DiceSet(faces, newLabel), c)
  {
    var k := FirstDie(db.dice, c.gameId, c.playerId);
    if k.Some? {
      var die := db.dice[k.value];
      db.dice := db.dice[k.value := die.(faces := faces.GetOr(die.faces), dieLabel := newLabel.GetOr(die.dieLabel))];
      var payload := Obj(WithField(WithField(map["playerId" := Num(c.playerId), "dieId" := Num(die.id)],
                                             "faces", if faces.Some? then Some(FacesValue(faces.value)) else None),
                                   "label", if newLabel.Some? then Some(Str(newLabel.value)) else None));
      var _ := Events.LogEvent(db, c.gameId, "EFFECT_DICE_SET", payload, Some(c.turnId), Some(c.playerId));
    }
  }

  /** The `victory.declare` branch of the loop. */
  method ApplyVictory(db: Db, c: Call, pawnId: Id, pawn: Pawn, posChanged: bool, message: Option<string>)
    requires db.Valid() && c.playerId in db.players
    modifies db
    ensures db.Valid() && db.pawns == old(db.pawns) && db.players.Keys == old(db.players.Keys)
    ensures Applier(db.Snapshot(), pawnId, pawn, posChanged)
            == Step(Applier(old(db.Snapshot()), pawnId, pawn, posChanged), VictoryDeclare(message), c)
  {
    db.players := db.players[c.playerId := db.players[c.playerId].(isActive := false)];
    var payload := Obj(map["playerId" := Num(c.playerId), "message" := Str(message.GetOr("Victoire !"))]);
    var _ := Events.LogEvent(db, c.gameId, "VICTORY_DECLARE", payload, Some(c.turnId), Some(c.playerId));
  }

  /** `applyEffects` against the store. */
  method ApplyEffects(db: Db, gameId: Id, turnId: Id, playerId: Id, effects: seq<Effect>)
    returns (r: Result<Option<Pos>>)
    requires db.Valid()
    modifies db
    ensures db.Valid()
    ensures var spec := ApplyEffectsSpec(old(db.Snapshot()), Call(gameId, turnId, playerId), effects);
            && (spec.Failure? ==> r == Failure(spec.error) && db.Snapshot() == old(db.Snapshot()))
            && (spec.Success? ==> r == Success(spec.value.finalPos) && db.Snapshot() == spec.value.tables)
  {
    if |effects| == 0 {
      return Success(None);
    }
    var c := Call(gameId, turnId, playerId);
    var found := MainPawn(db.Snapshot(), playerId);
    if found.Failure? {
      return Failure(found.error);
    }
    var pawnId := found.value;
    var pawn := db.pawns[pawnId];
    var posChanged := false;
    ghost var start := Applier(db.Snapshot(), pawnId, pawn, false);
    for i := 0 to |effects|
      invariant db.Valid()
      invariant pawnId in db.pawns && playerId in db.players
      invariant Applier(db.Snapshot(), pawnId, pawn, posChanged) == Run(start, effects[..i], c)
    {
      assert effects[..i + 1][..i] == effects[..i];
      match effects[i] {
        case Ignored =>
        case MoveDelta(steps) =>
          pawn, posChanged := ApplyMove(db, c, pawnId, pawn, posChanged, steps);
        case DiceSet(faces, newLabel) =>
          ApplyDice(db, c, pawnId, pawn, posChanged, faces, newLabel);
        case VictoryDeclare(message) =>
          ApplyVictory(db, c, pawnId, pawn, posChanged, message);
      }
    }
    assert effects[..|effects|] == effects;
    r := Success(if posChanged then Some(Pos(pawn.x, pawn.y)) else None);
  }

  // ---------------------------------------------------------------------------
  // Properties of the effect loop

  /** What an effect list may change: pawn x, player activity, die faces and
      labels, and the log (appended to). Everything else stays. */
  predicate Frame(t: Tables, u: Tables) {
    && u.games == t.games && u.tiles == t.tiles && u.connections == t.connections
    && u.turns == t.turns && u.rules == t.rules
    && u.pawns.Keys == t.pawns.Keys && u.players.Keys == t.players.Keys
    && (forall p | p in t.players :: u.players[p] == t.players[p].(isActive := u.players[p].isActive))
    && (forall p | p in t.pawns :: u.pawns[p] == t.pawns[p].(x := u.pawns[p].x))
    && |u.dice| == |t.dice|
    && (forall i | 0 <= i < |t.dice| ::
          u.dice[i] == t.dice[i].(faces := u.dice[i].faces, dieLabel := u.dice[i].dieLabel))
    && t.events <= u.events && t.nextId <= u.nextId
  }

  lemma FrameTrans(t: Tables, u: Tables, v: Tables)
    requires Frame(t, u) && Frame(u, v)
    ensures Frame(t, v)
  {
    assert t.events <= v.events by {
      assert v.events[..|t.events|] == v.events[..|u.events|][..|t.events|];
    }
  }

  /** The loop's local pawn is the stored row. */
  predicate InSync(a: Applier) {
    a.pawnId in a.tables.pawns && a.tables.pawns[a.pawnId] == a.pawn
  }

  lemma StepFrame(a: Applier, e: Effect, c: Call)
    requires InSync(a)
    ensures Frame(a.tables, Step(a, e, c).tables)
    ensures Step(a, e, c).pawnId == a.pawnId
    ensures InSync(Step(a, e, c))
    ensures Step(a, e, c).pawn == (if Moves(a, e, c) then a.pawn.(x := MoveTarget(a.pawn, e.steps, TrackMaxX(a.tables.tiles, c.gameId))) else a.pawn)
    ensures Step(a, e, c).posChanged == (a.posChanged || Moves(a, e, c))
  {
    match e
    case Ignored =>
      FrameRefl(a.tables);
    case MoveDelta(steps) =>
      MoveFrame(a, steps, c);
    case DiceSet(faces, newLabel) =>
      DiceFrame(a, faces, newLabel, c);
    case VictoryDeclare(message) =>
      VictoryFrame(a, message, c);
  }

  lemma FrameRefl(t: Tables)
    ensures Frame(t, t)
  {
    assert t.events <= t.events;
  }

  lemma MoveFrame(a: Applier, steps: Option<int>, c: Call)
    requires InSync(a)
    ensures var b := Step(a, MoveDelta(steps), c);
            var moved := MoveTarget(a.pawn, steps, TrackMaxX(a.tables.tiles, c.gameId)) != a.pawn.x;
            && Frame(a.tables, b.tables) && b.pawnId == a.pawnId && InSync(b)
            && b.pawn == (if moved then a.pawn.(x := MoveTarget(a.pawn, steps, TrackMaxX(a.tables.tiles, c.gameId))) else a.pawn)
            && b.posChanged == (a.posChanged || moved)
  {
  }

  lemma DiceFrame(a: Applier, faces: Option<seq<int>>, newLabel: Option<string>, c: Call)
    requires InSync(a)
    ensures var b := Step(a, DiceSet(faces, newLabel), c);
            Frame(a.tables, b.tables) && b.pawnId == a.pawnId && InSync(b) && b.pawn == a.pawn && b.posChanged == a.posChanged
  {
    if FirstDie(a.tables.dice, c.gameId, c.playerId).None? {
      FrameRefl(a.tables);
    }
  }

  lemma VictoryFrame(a: Applier, message: Option<string>, c: Call)
    requires InSync(a)
    ensures var b := Step(a, VictoryDeclare(message), c);
            Frame(a.tables, b.tables) && b.pawnId == a.pawnId && InSync(b) && b.pawn == a.pawn && b.posChanged == a.posChanged
  {
  }

  /** Running effects xs then ys is running xs ++ ys: each effect starts from
      the state, and the pawn position, the previous one left. */
  lemma {:induction false} RunAppend(a: Applier, xs: seq<Effect>, ys: seq<Effect>, c: Call)
    ensures Run(a, xs + ys, c) == Run(Run(a, xs, c), ys, c)
    decreases |ys|
  {
    if ys == [] {
      assert xs + ys == xs;
    } else {
      var n := |ys| - 1;
      var all := xs + ys;
      var front, last := all[..|all| - 1], all[|all| - 1];
      SplitLast(xs, ys);
      calc {
        Run(a, all, c);
        Step(Run(a, front, c), last, c);
        { RunAppend(a, xs, ys[..n], c); }
        Step(Run(Run(a, xs, c), ys[..n], c), ys[n], c);
        Run(Run(a, xs, c), ys, c);
      }
    }
  }

  lemma SplitLast(xs: seq<Effect>, ys: seq<Effect>)
    requires ys != []
    ensures (xs + ys)[..|xs + ys| - 1] == xs + ys[..|ys| - 1]
    ensures (xs + ys)[|xs + ys| - 1] == ys[|ys| - 1]
  {
  }

  /** The loop changes only what `Frame` allows and keeps its local pawn equal
      to the stored row. */
  lemma {:induction false} RunFrame(a: Applier, es: seq<Effect>, c: Call)
    requires InSync(a)
    ensures Frame(a.tables, Run(a, es, c).tables)
    ensures Run(a, es, c).pawnId == a.pawnId
    ensures InSync(Run(a, es, c))
    decreases |es|
  {
    if es == [] {
      assert a.tables.events <= a.tables.events;
    } else {
      var prev := Run(a, es[..|es| - 1], c);
      RunFrame(a, es[..|es| - 1], c);
      StepFrame(prev, es[|es| - 1], c);
      FrameTrans(a.tables, prev.tables, Run(a, es, c).tables);
    }
  }

  /** Entries that are not one of the three effects do nothing at all. */
  lemma {:induction false} IgnoredDoNothing(a: Applier, es: seq<Effect>, c: Call)
    requires forall i | 0 <= i < |es| :: es[i].Ignored?
    ensures Run(a, es, c) == a
    decreases |es|
  {
    if es != [] {
      IgnoredDoNothing(a, es[..|es| - 1], c);
    }
  }

  /** The die lookup sees only ids, games and owners, which the loop keeps. */
  lemma {:induction false} FirstDieKept(d: seq<Die>, e: seq<Die>, gameId: Id, playerId: Id)
    requires |d| == |e|
    requires forall i | 0 <= i < |d| :: e[i] == d[i].(faces := e[i].faces, dieLabel := e[i].dieLabel)
    ensures FirstDie(d, gameId, playerId) == FirstDie(e, gameId, playerId)
    decreases |d|
  {
    if d != [] {
      FirstDieKept(d[1..], e[1..], gameId, playerId);
    }
  }

  /** How many log entries the list appends: one per `move.delta` and
      `victory.declare`, and one per `dice.set` when the player has a die. */
  function LoggedCount(es: seq<Effect>, hasDie: bool): nat
    decreases |es|
  {
    if es == [] then 0
    else
      var e := es[|es| - 1];
      LoggedCount(es[..|es| - 1], hasDie) +
      (if e.MoveDelta? || e.VictoryDeclare? || (e.DiceSet? && hasDie) then 1 else 0)
  }

  /** The log grows by exactly `LoggedCount` entries. */
  lemma {:induction false} RunLog(a: Applier, es: seq<Effect>, c: Call)
    requires InSync(a)
    ensures |Run(a, es, c).tables.events|
            == |a.tables.events| + LoggedCount(es, FirstDie(a.tables.dice, c.gameId, c.playerId).Some?)
    decreases |es|
  {
    if es != [] {
      var prev := Run(a, es[..|es| - 1], c);
      RunLog(a, es[..|es| - 1], c);
      RunFrame(a, es[..|es| - 1], c);
      FirstDieKept(a.tables.dice, prev.tables.dice, c.gameId, c.playerId);
      StepLog(prev, es[|es| - 1], c);
    }
  }

  /** One effect appends one entry, except `dice.set` for a player without a
      die and entries that are ignored. */
  lemma StepLog(a: Applier, e: Effect, c: Call)
    ensures |Step(a, e, c).tables.events| == |a.tables.events|
              + (if e.MoveDelta? || e.VictoryDeclare? || (e.DiceSet? && FirstDie(a.tables.dice, c.gameId, c.playerId).Some?) then 1 else 0)
  {
  }

  /** Some effect of the list changes the pawn's position when it runs,
      each effect starting from the state the ones before it left. */
  predicate SomeMove(a: Applier, es: seq<Effect>, c: Call)
    decreases |es|
  {
    es != [] &&
    (SomeMove(a, es[..|es| - 1], c) || Moves(Run(a, es[..|es| - 1], c), es[|es| - 1], c))
  }

  /** The flag is set exactly when some `move.delta` changed the position,
      and when it stays clear the pawn is where it started. */
  lemma {:induction false} RunPosChanged(a: Applier, es: seq<Effect>, c: Call)
    requires InSync(a)
    ensures Run(a, es, c).posChanged <==> a.posChanged || SomeMove(a, es, c)
    ensures !Run(a, es, c).posChanged ==> Run(a, es, c).pawn == a.pawn
    decreases |es|
  {
    if es != [] {
      var init := es[..|es| - 1];
      RunPosChanged(a, init, c);
      RunFrame(a, init, c);
      StepFrame(Run(a, init, c), es[|es| - 1], c);
    }
  }

  /** `move.delta` clamps x into [0, maxX], keeps y, writes the pawn only
      when x changes and logs `EFFECT_MOVE_DELTA` in every case. */
  lemma MoveDeltaStep(a: Applier, steps: Option<int>, c: Call)
    requires InSync(a)
    ensures var b := Step(a, MoveDelta(steps), c);
            var maxX := TrackMaxX(a.tables.tiles, c.gameId);
            && b.pawn.x == (if a.pawn.x + steps.GetOr(0) < 0 then 0
                            else if a.pawn.x + steps.GetOr(0) > maxX then (if maxX < 0 then 0 else maxX)
                            else a.pawn.x + steps.GetOr(0))
            && b.pawn.y == a.pawn.y
            && InSync(b)
            && (b.pawn.x == a.pawn.x ==> b.tables.pawns == a.tables.pawns)
            && |b.tables.events| == |a.tables.events| + 1
            && b.tables.events[..|a.tables.events|] == a.tables.events
            && b.tables.events[|a.tables.events|].kind == "EFFECT_MOVE_DELTA"
  {
  }

  /** `dice.set` rewrites the player's first die, keeping an omitted field;
      with no die for the player it does nothing. */
  lemma DiceSetStep(a: Applier, faces: Option<seq<int>>, newLabel: Option<string>, c: Call)
    ensures var b := Step(a, DiceSet(faces, newLabel), c);
            match FirstDie(a.tables.dice, c.gameId, c.playerId)
            case None => b == a
            case Some(k) =>
              && b.tables.dice[k].faces == faces.GetOr(a.tables.dice[k].faces)
              && b.tables.dice[k].dieLabel == newLabel.GetOr(a.tables.dice[k].dieLabel)
              && (forall j | 0 <= j < |a.tables.dice| && j != k :: b.tables.dice[j] == a.tables.dice[j])
              && b.pawn == a.pawn && b.tables.pawns == a.tables.pawns && b.tables.players == a.tables.players
              && |b.tables.events| == |a.tables.events| + 1
              && b.tables.events[|a.tables.events|].kind == "EFFECT_DICE_SET"
  {
  }

  /** `victory.declare` deactivates the player and logs the message, by
      default "Victoire !". */
  lemma VictoryStep(a: Applier, message: Option<string>, c: Call)
    requires c.playerId in a.tables.players
    ensures var b := Step(a, VictoryDeclare(message), c);
            var ev := b.tables.events[|a.tables.events|];
            && b.tables.players == a.tables.players[c.playerId := a.tables.players[c.playerId].(isActive := false)]
            && b.pawn == a.pawn && b.tables.pawns == a.tables.pawns && b.tables.dice == a.tables.dice
            && |b.tables.events| == |a.tables.events| + 1
            && ev.kind == "VICTORY_DECLARE"
            && Get(ev.payload, "message") == Str(if message.Some? then message.value else "Victoire !")
  {
  }

  /** An empty list returns `{}` and touches nothing; a non-empty one fails
      exactly when the core pawn is missing, with the source's error. */
  lemma ApplyEffectsErrors(t: Tables, c: Call, es: seq<Effect>)
    ensures es == [] ==> ApplyEffectsSpec(t, c, es) == Success(Applied(t, None))
    ensures es != [] && (c.playerId !in t.players || t.players[c.playerId].mainPawnId.None?)
            ==> ApplyEffectsSpec(t, c, es) == Failure(CorePawnMissing)
    ensures es != [] && c.playerId in t.players && t.players[c.playerId].mainPawnId.Some?
            && t.players[c.playerId].mainPawnId.value !in t.pawns
            ==> ApplyEffectsSpec(t, c, es) == Failure(CorePawnNotFound)
    ensures ApplyEffectsSpec(t, c, es).Failure? <==>
            es != [] && (c.playerId !in t.players || t.players[c.playerId].mainPawnId.None?
                         || t.players[c.playerId].mainPawnId.value !in t.pawns)
  {
  }

  /** On success: the store changed only within `Frame`, the log grew by
      `LoggedCount`, `finalPos` is present iff some effect moved the pawn and
      then is the stored position; absent, the pawn row is as it was. */
  lemma {:induction false} ApplyEffectsResult(t: Tables, c: Call, es: seq<Effect>)
    requires ApplyEffectsSpec(t, c, es).Success?
    ensures var r := ApplyEffectsSpec(t, c, es).value;
            && Frame(t, r.tables)
            && |r.tables.events| == |t.events| + LoggedCount(es, FirstDie(t.dice, c.gameId, c.playerId).Some?)
            && (es != [] ==>
                  var pawnId := t.players[c.playerId].mainPawnId.value;
                  var a := Applier(t, pawnId, t.pawns[pawnId], false);
                  && (r.finalPos.Some? <==> SomeMove(a, es, c))
                  && (r.finalPos.Some? ==> r.tables.pawns[pawnId].x == r.finalPos.value.x
                                           && r.tables.pawns[pawnId].y == r.finalPos.value.y)
                  && (r.finalPos.None? ==> r.tables.pawns[pawnId] == t.pawns[pawnId]))
  {
    if es == [] {
      assert t.events <= t.events;
    } else {
      var pawnId := t.players[c.playerId].mainPawnId.value;
      var a := Applier(t, pawnId, t.pawns[pawnId], false);
      RunFrame(a, es, c);
      RunLog(a, es, c);
      RunPosChanged(a, es, c);
    }
  }
}
