/** Shared vocabulary of the engine: store identifiers, the rule trigger
    enumeration, the DSL effect union and the error codes the engine throws. */
module EngineTypes {

  /** Row identifiers. The store hands them out in creation order. */
  type Id = nat

  /** How many UTF-16 code units the character takes: one in the basic
      plane, a surrogate pair above it. */
  function Utf16Length(ch: char): nat {
    if ch as int < 0x1_0000 then 1 else 2
  }

  datatype Option<+T> = None | Some(value: T) {
    /** The `??` operator: the value when present, the default otherwise. */
    function GetOr(default: T): T {
      if Some? then value else default
    }
  }

  /** A value, or the error an engine function throws. */
  datatype Result<+T> = Success(value: T) | Failure(error: Error)

  /** A check that either passes or throws. */
  datatype Outcome = Pass | Fail(error: Error)

  /** The error messages thrown by the modelled code. */
  datatype Error =
    | CorePawnMissing          // 'CORE_PAWN_MISSING'
    | CorePawnNotFound         // 'CORE_PAWN_NOT_FOUND'
    | GameNotFound             // 'GAME_NOT_FOUND'
    | GameNotRunning           // 'GAME_NOT_RUNNING'
    | PlayerNotInGame          // 'PLAYER_NOT_IN_GAME'
    | RuleChangeQuotaExceeded  // 'RULE_CHANGE_QUOTA_EXCEEDED'
    | InvalidRequest           // a request body the schema rejects

  /** The lifecycle events a rule can be attached to. */
  datatype Trigger =
    | TurnStart | TurnAfterRoll | TurnAfterMove | TurnEnd
    | OnEnterTile | OnLeaveTile | OnLandOn
    | OnResourceChange | OnItemUse
    | OnRuleAdded | OnRuleModified | OnRuleRemoved
    | OnVictoryCheck

  /** One entry of a rule's effect list. `None` fields are absent or null in
      the stored JSON. `Ignored` is an entry the applier skips: a non-object
      entry, or an object whose `type` is none of the three known ones. */
  datatype Effect =
    | MoveDelta(steps: Option<int>)
    | DiceSet(faces: Option<seq<int> >, dieLabel: Option<string>)
    | VictoryDeclare(message: Option<string>)
    | Ignored
}
