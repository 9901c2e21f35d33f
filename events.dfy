/** The append-only event log. */
module Events {
  import opened EngineTypes
  import opened Json
  import opened Store

  /** The tables after appending one event row; the new row takes the next
      identifier. */
  function Logged(t: Tables, gameId: Id, kind: string, payload: Value,
                  turnId: Option<Id>, actorId: Option<Id>): (r: Tables)
    ensures |r.events| == |t.events| + 1 && r.events[..|t.events|] == t.events
    ensures r.events[|t.events|] == Event(t.nextId, gameId, turnId, actorId, kind, payload)
    ensures r.nextId == t.nextId + 1
    ensures r.(events := t.events, nextId := t.nextId) == t
  {
    t.(events := t.events + [Event(t.nextId, gameId, turnId, actorId, kind, payload)],
       nextId := t.nextId + 1)
  }

  /** Appending keeps the store well formed, and the new identifier differs
      from every identifier already in the log. */
  lemma LoggedWellFormed(t: Tables, gameId: Id, kind: string, payload: Value,
                         turnId: Option<Id>, actorId: Option<Id>)
    requires WellFormed(t)
    ensures WellFormed(Logged(t, gameId, kind, payload, turnId, actorId))
    ensures forall i | 0 <= i < |t.events| :: t.events[i].id != t.nextId
  {
  }

  /** `logEvent(client, ...)`: creates one event row and returns its id. An
      absent turn or actor is stored as null (`None`). */
  method LogEvent(client: Db, gameId: Id, kind: string, payload: Value,
                  turnId: Option<Id>, actorId: Option<Id>) returns (id: Id)
    requires client.Valid()
    modifies client
    ensures client.Valid()
    ensures client.Snapshot() == Logged(old(client.Snapshot()), gameId, kind, payload, turnId, actorId)
    ensures id == old(client.nextId) && client.events[|client.events| - 1].id == id
  {
    LoggedWellFormed(client.Snapshot(), gameId, kind, payload, turnId, actorId);
    id := client.nextId;
    client.events := client.events + [Event(id, gameId, turnId, actorId, kind, payload)];
    client.nextId := client.nextId + 1;
  }

  /** `logEventGlobal(...)`: `logEvent` on the global client. */
  method LogEventGlobal(global: Db, gameId: Id, kind: string, payload: Value,
                        turnId: Option<Id>, actorId: Option<Id>) returns (id: Id)
    requires global.Valid()
    modifies global
    ensures global.Valid()
    ensures global.Snapshot() == Logged(old(global.Snapshot()), gameId, kind, payload, turnId, actorId)
    ensures id == old(global.nextId)
  {
    id := LogEvent(global, gameId, kind, payload, turnId, actorId);
  }
}
