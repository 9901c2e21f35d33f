/** The request-body schemas: which JSON bodies each endpoint accepts, and
    the typed input it reads from an accepted one. Unknown keys are ignored. */
module Validators {
  import opened EngineTypes
  import opened Json

  /** A property of a body; a missing key reads as undefined. */
  function Field(v: Value, key: string): Value {
    if v.Obj? && key in v.fields then v.fields[key] else Undefined
  }

  /** `z.string().min(1)`. */
  predicate NonEmptyString(v: Value) {
    v.Str? && |v.s| >= 1
  }

  /** `z.string().optional()`. */
  predicate OptionalString(v: Value) {
    v.Undefined? || v.Str?
  }

  function OptionalStringValue(v: Value): Option<string>
    requires OptionalString(v)
  {
    if v.Str? then Some(v.s) else None
  }

  function OptionalStringJson(o: Option<string>): Value {
    if o.Some? then Str(o.value) else Undefined
  }

  // ---------------------------------------------------------------------------
  // zCreateGame

  datatype PlayerInput = PlayerInput(nickname: string, color: Option<string>)
  datatype CreateGameInput = CreateGameInput(name: string, players: seq<PlayerInput>)

  /** One entry of `players`: a non-empty nickname, an optional color. */
  predicate ZPlayerEntry(v: Value) {
    v.Obj? && NonEmptyString(Field(v, "nickname")) && OptionalString(Field(v, "color"))
  }

  /** `zCreateGame`: a non-empty name and at least one valid player entry. */
  predicate ZCreateGame(v: Value) {
    && v.Obj?
    && NonEmptyString(Field(v, "name"))
    && Field(v, "players").Arr?
    && |Field(v, "players").items| >= 1
    && forall i | 0 <= i < |Field(v, "players").items| :: ZPlayerEntry(Field(v, "players").items[i])
  }

  predicate ValidCreateGame(x: CreateGameInput) {
    |x.name| >= 1 && |x.players| >= 1 && forall i | 0 <= i < |x.players| :: |x.players[i].nickname| >= 1
  }

  function PlayerJson(p: PlayerInput): Value {
    Obj(map["nickname" := Str(p.nickname)] + (if p.color.Some? then map["color" := Str(p.color.value)] else map[]))
  }

  function CreateGameJson(x: CreateGameInput): Value {
    Obj(map["name" := Str(x.name),
            "players" := Arr(seq(|x.players|, i requires 0 <= i < |x.players| => PlayerJson(x.players[i])))])
  }

  function ParsePlayer(v: Value): PlayerInput
    requires ZPlayerEntry(v)
  {
    PlayerInput(Field(v, "nickname").s, OptionalStringValue(Field(v, "color")))
  }

  /** `zCreateGame.parse(body)`. */
  function ParseCreateGame(v: Value): (r: Option<CreateGameInput>)
    ensures r.Some? <==> ZCreateGame(v)
    ensures r.Some? ==> ValidCreateGame(r.value)
    ensures r.Some? ==> |r.value.players| == |Field(v, "players").items|
  {
    if !ZCreateGame(v) then None
    else
      var items := Field(v, "players").items;
      Some(CreateGameInput(Field(v, "name").s, seq(|items|, i requires 0 <= i < |items| => ParsePlayer(items[i]))))
  }

  /** A valid input, written as a body, is accepted and read back unchanged. */
  lemma CreateGameRoundTrip(x: CreateGameInput)
    requires ValidCreateGame(x)
    ensures ParseCreateGame(CreateGameJson(x)) == Some(x)
  {
    var v := CreateGameJson(x);
    var items := Field(v, "players").items;
    assert Field(v, "name") == Str(x.name);
    assert |items| == |x.players|;
    forall i | 0 <= i < |x.players|
      ensures ZPlayerEntry(items[i]) && ParsePlayer(items[i]) == x.players[i]
    {
      var p := x.players[i];
      assert items[i] == PlayerJson(p);
      assert Field(PlayerJson(p), "nickname") == Str(p.nickname);
      assert Field(PlayerJson(p), "color") == OptionalStringJson(p.color);
    }
    assert ZCreateGame(v);
    var parsed := seq(|items|, i requires 0 <= i < |items| => ParsePlayer(items[i]));
    assert parsed == x.players;
  }

  // ---------------------------------------------------------------------------
  // zJoinGame, zRoll, zEndTurn

  datatype JoinGameInput = JoinGameInput(nickname: string, color: Option<string>)

  /** `zJoinGame`: a non-empty nickname, an optional color. */
  predicate ZJoinGame(v: Value) {
    v.Obj? && NonEmptyString(Field(v, "nickname")) && OptionalString(Field(v, "color"))
  }

  function ParseJoinGame(v: Value): (r: Option<JoinGameInput>)
    ensures r.Some? <==> ZJoinGame(v)
    ensures r.Some? ==> |r.value.nickname| >= 1
  {
    if ZJoinGame(v) then Some(JoinGameInput(Field(v, "nickname").s, OptionalStringValue(Field(v, "color")))) else None
  }

  function JoinGameJson(x: JoinGameInput): Value {
    Obj(map["nickname" := Str(x.nickname), "color" := OptionalStringJson(x.color)])
  }

  lemma JoinGameRoundTrip(x: JoinGameInput)
    requires |x.nickname| >= 1
    ensures ParseJoinGame(JoinGameJson(x)) == Some(x)
  {
  }

  /** `zRoll` and `zEndTurn`: a non-empty player id. */
  predicate ZPlayerAction(v: Value) {
    v.Obj? && NonEmptyString(Field(v, "playerId"))
  }

  function ParsePlayerAction(v: Value): (r: Option<string>)
    ensures r.Some? <==> ZPlayerAction(v)
    ensures r.Some? ==> |r.value| >= 1 && Field(v, "playerId") == Str(r.value)
  {
    if ZPlayerAction(v) then Some(Field(v, "playerId").s) else None
  }

  // ---------------------------------------------------------------------------
  // zRulesMutation, zTileEdit

  datatype MutationAction = Add | Modify | Remove

  /** `z.enum(['add', 'modify', 'remove'])`. */
  function ParseMutationAction(v: Value): (r: Option<MutationAction>)
    ensures r.Some? <==> v == Str("add") || v == Str("modify") || v == Str("remove")
  {
    if v == Str("add") then Some(Add)
    else if v == Str("modify") then Some(Modify)
    else if v == Str("remove") then Some(Remove)
    else None
  }

  function MutationActionName(a: MutationAction): string {
    match a
    case Add => "add"
    case Modify => "modify"
    case Remove => "remove"
  }

  datatype RulesMutationInput = RulesMutationInput(playerId: string, action: MutationAction, rule: Value, ruleId: Option<string>)

  /** `zRulesMutation`: a player id, one of the three actions, any `rule`,
      an optional string `ruleId`. */
  predicate ZRulesMutation(v: Value) {
    && v.Obj?
    && NonEmptyString(Field(v, "playerId"))
    && ParseMutationAction(Field(v, "action")).Some?
    && OptionalString(Field(v, "ruleId"))
  }

  function ParseRulesMutation(v: Value): (r: Option<RulesMutationInput>)
    ensures r.Some? <==> ZRulesMutation(v)
    ensures r.Some? ==> Field(v, "action") == Str(MutationActionName(r.value.action))
  {
    if !ZRulesMutation(v) then None
    else Some(RulesMutationInput(Field(v, "playerId").s, ParseMutationAction(Field(v, "action")).value,
                                 Field(v, "rule"), OptionalStringValue(Field(v, "ruleId"))))
  }

  function RulesMutationJson(x: RulesMutationInput): Value {
    Obj(map["playerId" := Str(x.playerId), "action" := Str(MutationActionName(x.action)),
            "rule" := x.rule, "ruleId" := OptionalStringJson(x.ruleId)])
  }

  lemma RulesMutationRoundTrip(x: RulesMutationInput)
    requires |x.playerId| >= 1
    ensures ParseRulesMutation(RulesMutationJson(x)) == Some(x)
  {
    match x.action {
      case Add =>
      case Modify =>
      case Remove =>
    }
  }

  datatype TileOp = AddTile | RemoveTile | Link | Unlink | TagArrival | UpdateTile

  function TileOpName(op: TileOp): string {
    match op
    case AddTile => "addTile"
    case RemoveTile => "removeTile"
    case Link => "link"
    case Unlink => "unlink"
    case TagArrival => "tagArrival"
    case UpdateTile => "updateTile"
  }

  /** `z.enum(['addTile', 'removeTile', 'link', 'unlink', 'tagArrival', 'updateTile'])`. */
  function ParseTileOp(v: Value): (r: Option<TileOp>)
    ensures r.Some? <==> v.Str? && v.s in {"addTile", "removeTile", "link", "unlink", "tagArrival", "updateTile"}
    ensures r.Some? ==> v == Str(TileOpName(r.value))
  {
    if v == Str("addTile") then Some(AddTile)
    else if v == Str("removeTile") then Some(RemoveTile)
    else if v == Str("link") then Some(Link)
    else if v == Str("unlink") then Some(Unlink)
    else if v == Str("tagArrival") then Some(TagArrival)
    else if v == Str("updateTile") then Some(UpdateTile)
    else None
  }

  datatype TileEditInput = TileEditInput(playerId: string, op: TileOp, data: Value)

  /** `zTileEdit`: a player id, one of the six operations, any `data`. */
  predicate ZTileEdit(v: Value) {
    v.Obj? && NonEmptyString(Field(v, "playerId")) && ParseTileOp(Field(v, "op")).Some?
  }

  function ParseTileEdit(v: Value): (r: Option<TileEditInput>)
    ensures r.Some? <==> ZTileEdit(v)
    ensures r.Some? ==> Field(v, "op") == Str(TileOpName(r.value.op))
  {
    if ZTileEdit(v) then Some(TileEditInput(Field(v, "playerId").s, ParseTileOp(Field(v, "op")).value, Field(v, "data")))
    else None
  }

  function TileEditJson(x: TileEditInput): Value {
    Obj(map["playerId" := Str(x.playerId), "op" := Str(TileOpName(x.op)), "data" := x.data])
  }

  lemma TileEditRoundTrip(x: TileEditInput)
    requires |x.playerId| >= 1
    ensures ParseTileEdit(TileEditJson(x)) == Some(x)
  {
    match x.op {
      case AddTile =>
      case RemoveTile =>
      case Link =>
      case Unlink =>
      case TagArrival =>
      case UpdateTile =>
    }
  }
}
