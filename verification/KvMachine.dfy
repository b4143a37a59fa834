/** The machine that applies commands in place (basisdb-node/src/command.rs). */
module KvMachine {
  import opened Types
  import opened Kv
  import KvRules

  class Machine {
    var nextClientId: ClientId
    var nextGeneration: Generation
    var entries: map<KvName, KvRecord>
    var sessions: map<ClientId, Session>

    ghost function Value(): KvState
      reads this
    {
      KvState(nextClientId, nextGeneration, entries, sessions)
    }

    constructor ()
      ensures Value() == FRESH_STATE && Valid(Value())
    {
      nextClientId := 1;
      nextGeneration := 1;
      entries := map[];
      sessions := map[];
    }

    /** Applies one command; a valid machine stays valid. */
    method Apply(c: Command) returns (r: Result<Answer>)
      modifies this
      ensures (Value(), r) == Kv.Apply(old(Value()), c)
      ensures old(Valid(Value())) ==> Valid(Value())
    {
      ghost var before := Value();
      match c {
        case RegisterSession =>
          var client := TakeClientId();
          r := if client.Err? then Err(client.error) else Ok(SessionRegistered(client.value));
        case ReadBarrier => r := Ok(BarrierPassed);
        case Put(_, _, _, _, _, _, _) => r := ApplyPut(c);
        case Delete(_, _, _, _, _) => r := ApplyDelete(c);
      }
      if Valid(before) {
        ApplyValid(before, c);
      }
    }

    /** Writes its own name and no other, under a generation of its own, or writes nothing. A new
        put of proper form writes if and only if its conditions are met and a generation is left. */
    method ApplyPut(c: Command) returns (r: Result<Answer>)
      requires c.Put?
      modifies this
      ensures (Value(), r) == Mutate(old(Value()), c)
      ensures nextGeneration == old(nextGeneration) ==> entries == old(entries)
      ensures nextGeneration != old(nextGeneration) ==>
                && r.Ok? && nextGeneration == old(nextGeneration) + 1
                && var record := KvRecord(c.body, EtagFor(old(nextGeneration)), old(nextGeneration));
                   entries == old(entries)[KvName(c.space, c.key) := record]
      ensures nextClientId == old(nextClientId) && sessions - {c.clientId} == old(sessions) - {c.clientId}
      ensures KvRules.Proper(c) && old(KvRules.New(Value(), c)) ==>
                (nextGeneration != old(nextGeneration) <==>
                   && (c.ifNoneMatch ==> KvName(c.space, c.key) !in old(entries))
                   && old(KvRules.EtagMet(Value(), c)) && old(nextGeneration) < U64_MAX)
    {
      ghost var before := Value();
      if KvRules.Proper(c) && KvRules.New(before, c) {
        KvRules.PutIff(before, c);
      }
      var invalid := Validate(c);
      if invalid.Some? {
        return Err(invalid.value);
      }
      var name, request := KvName(c.space, c.key), RequestOf(c);
      var known := LookUpCache(c);
      if known.Err? {
        return Err(known.error);
      }
      if known.value.Some? {
        return Ok(known.value.value);
      }
      var current := if name in entries then Some(entries[name]) else None;
      var check := CheckPut(current, c.ifMatch, c.ifNoneMatch);
      if check.Some? {
        r := Reject(c, check.value);
        return;
      }
      var generation := TakeGeneration();
      if generation.None? {
        r := Reject(c, GenerationExhausted);
        return;
      }
      var etag := EtagFor(generation.value);
      var response := PutResponse(name, etag, generation.value, |c.body|);
      entries := entries[name := KvRecord(c.body, etag, generation.value)];
      Remember(c, PutResult(response));
      r := Ok(PutDone(response));
    }

    /** Removes its own name and no other, and says what it removed, or removes nothing. A new
        delete of proper form is carried out if and only if its condition is met. */
    method ApplyDelete(c: Command) returns (r: Result<Answer>)
      requires c.Delete?
      modifies this
      ensures (Value(), r) == Mutate(old(Value()), c)
      ensures entries != old(entries) ==>
                && var name := KvName(c.space, c.key);
                && name in old(entries) && entries == old(entries) - {name}
                && (c.ifMatch == [] || c.ifMatch == old(entries)[name].etag)
                && r == Ok(DeleteDone(DeleteResponse(name, old(entries)[name].etag, old(entries)[name].generation,
                                                     true)))
      ensures nextGeneration == old(nextGeneration) && nextClientId == old(nextClientId)
      ensures sessions - {c.clientId} == old(sessions) - {c.clientId}
      ensures KvRules.Proper(c) && old(KvRules.New(Value(), c)) ==>
                && (r.Ok? <==> old(KvRules.EtagMet(Value(), c)))
                && (r.Ok? ==> KvName(c.space, c.key) !in entries)
    {
      ghost var before := Value();
      if KvRules.Proper(c) && KvRules.New(before, c) {
        KvRules.DeleteIff(before, c);
      }
      var invalid := Validate(c);
      if invalid.Some? {
        return Err(invalid.value);
      }
      var name := KvName(c.space, c.key);
      var known := LookUpCache(c);
      if known.Err? {
        return Err(known.error);
      }
      if known.value.Some? {
        return Ok(known.value.value);
      }
      if c.ifMatch != [] && (name !in entries || c.ifMatch != entries[name].etag) {
        r := Reject(c, EtagMismatch);
        return;
      }
      var response := DeleteResponse(name, [], 0, false);
      if name in entries {
        response := DeleteResponse(name, entries[name].etag, entries[name].generation, true);
      }
      entries := entries - {name};
      Remember(c, DeleteResult(response));
      r := Ok(DeleteDone(response));
    }

    method LookUpCache(c: Command) returns (r: Result<Option<Answer>>)
      requires c.Put? || c.Delete?
      ensures r == Cached(Value(), c)
    {
      if c.clientId !in sessions {
        return Err(UnknownSession);
      }
      var cached := CachedMutation(sessions[c.clientId], c.sequence, RequestOf(c));
      match cached
      case Err(e) => r := Err(e);
      case Ok(None) => r := Ok(None);
      case Ok(Some(PutResult(response))) => r := if c.Put? then Ok(Some(PutDone(response))) else Err(ResultMismatch);
      case Ok(Some(DeleteResult(response))) =>
        r := if c.Delete? then Ok(Some(DeleteDone(response))) else Err(ResultMismatch);
      case Ok(Some(RejectedResult(rejection))) => r := Err(Rejected(rejection));
    }

    /** The counter stops one short of its last value rather than wrap around. */
    method TakeClientId() returns (r: Result<ClientId>)
      modifies this
      ensures (Value(), if r.Ok? then Ok(SessionRegistered(r.value)) else Err(r.error))
           == Kv.Apply(old(Value()), RegisterSession)
      ensures r.Ok? && old(Valid(Value())) ==> r.value !in old(sessions) && r.value < nextClientId
      ensures r.Err? ==> Value() == old(Value())
    {
      var clientId := nextClientId;
      if nextClientId + 1 > U64_MAX {
        return Err(ClientIdsExhausted);
      }
      nextClientId := nextClientId + 1;
      sessions := sessions[clientId := NEW_SESSION];
      r := Ok(clientId);
    }

    method TakeGeneration() returns (r: Option<Generation>)
      modifies this`nextGeneration
      ensures if old(nextGeneration) + 1 > U64_MAX then r == None && nextGeneration == old(nextGeneration)
              else r == Some(old(nextGeneration)) && nextGeneration == old(nextGeneration) + 1
      ensures r.Some? && old(Valid(Value())) ==> forall n :: n in entries ==> entries[n].generation < r.value
    {
      if nextGeneration + 1 > U64_MAX {
        return None;
      }
      r := Some(nextGeneration);
      nextGeneration := nextGeneration + 1;
    }

    method Remember(c: Command, result: Recorded)
      requires c.Put? || c.Delete?
      modifies this`sessions
      ensures Value() == Record(old(Value()), c, result)
    {
      sessions := sessions[c.clientId := Session(c.sequence, Some(RequestOf(c)), Some(result))];
    }

    method Reject(c: Command, rejection: Rejection) returns (r: Result<Answer>)
      requires c.Put? || c.Delete?
      modifies this`sessions
      ensures Value() == Record(old(Value()), c, RejectedResult(rejection)) && r == Err(Rejected(rejection))
    {
      Remember(c, RejectedResult(rejection));
      r := Err(Rejected(rejection));
    }
  }
}
