/** The replicated key-value machine (basisdb-node/src/command.rs). Strings are their UTF-8
    octets; counters are 64 bits wide. */
module Kv {
  import opened Types

  const MAX_VALUE_BYTES := 65536
  const MAX_NAMESPACE_BYTES := 255
  const MAX_KEY_BYTES := 1024
  const MAX_ETAG_BYTES := 128

  type ClientId = nat
  type Generation = nat

  datatype KvName = KvName(space: Bytes, key: Bytes)
  datatype KvRecord = KvRecord(body: Bytes, etag: Bytes, generation: Generation)

  datatype Command =
    | RegisterSession
    | ReadBarrier
    | Put(clientId: ClientId, sequence: nat, space: Bytes, key: Bytes, body: Bytes, ifMatch: Bytes, ifNoneMatch: bool)
    | Delete(clientId: ClientId, sequence: nat, space: Bytes, key: Bytes, ifMatch: Bytes)
  {
    predicate Mutates(client: ClientId) {
      (Put? || Delete?) && clientId == client
    }
  }

  datatype Request =
    | PutRequest(name: KvName, body: Bytes, ifMatch: Bytes, ifNoneMatch: bool)
    | DeleteRequest(name: KvName, ifMatch: Bytes)

  datatype Rejection = KeyExists | EtagMismatch | GenerationExhausted

  datatype PutResponse = PutResponse(name: KvName, etag: Bytes, generation: Generation, size: nat)
  datatype DeleteResponse = DeleteResponse(name: KvName, etag: Bytes, generation: Generation, deleted: bool)

  datatype Recorded =
    | PutResult(put: PutResponse)
    | DeleteResult(delete: DeleteResponse)
    | RejectedResult(rejection: Rejection)

  datatype Session = Session(sequence: nat, request: Option<Request>, result: Option<Recorded>)

  datatype KvState = KvState(
    nextClientId: ClientId, nextGeneration: Generation,
    entries: map<KvName, KvRecord>, sessions: map<ClientId, Session>)

  datatype Answer =
    | SessionRegistered(clientId: ClientId)
    | BarrierPassed
    | PutDone(put: PutResponse)
    | DeleteDone(delete: DeleteResponse)

  datatype KvError =
    | ClientNotRegistered | SequenceNotPositive | EtagTooLong | ExclusivePreconditions | ValueTooLarge
    | NamespaceEmpty | NamespaceTooLong | KeyEmpty | KeyTooLong
    | UnknownSession | StaleSequence | SequenceReused | ClientIdsExhausted
    | CacheIncomplete | CacheInconsistent | ResultMismatch
    | Rejected(rejection: Rejection)

  datatype Result<+T> = Ok(value: T) | Err(error: KvError)

  const FRESH_STATE := KvState(1, 1, map[], map[])
  const NEW_SESSION := Session(0, None, None)

  // ----- Validation -----

  function ValidateMutation(clientId: ClientId, sequence: nat): Option<KvError> {
    if clientId == 0 then Some(ClientNotRegistered)
    else if sequence == 0 then Some(SequenceNotPositive)
    else None
  }

  function ValidatePutPreconditions(ifMatch: Bytes, ifNoneMatch: bool): Option<KvError> {
    if |ifMatch| > MAX_ETAG_BYTES then Some(EtagTooLong)
    else if ifMatch != [] && ifNoneMatch then Some(ExclusivePreconditions)
    else None
  }

  function ValidateName(name: KvName): Option<KvError> {
    if name.space == [] then Some(NamespaceEmpty)
    else if |name.space| > MAX_NAMESPACE_BYTES then Some(NamespaceTooLong)
    else if name.key == [] then Some(KeyEmpty)
    else if |name.key| > MAX_KEY_BYTES then Some(KeyTooLong)
    else None
  }

  /** The first thing wrong with a mutation, in the order the machine looks. */
  function Validate(c: Command): Option<KvError>
    requires c.Put? || c.Delete?
  {
    var first := ValidateMutation(c.clientId, c.sequence);
    if first.Some? then first
    else if c.Put? then
      var second := ValidatePutPreconditions(c.ifMatch, c.ifNoneMatch);
      if second.Some? then second
      else if |c.body| > MAX_VALUE_BYTES then Some(ValueTooLarge)
      else ValidateName(KvName(c.space, c.key))
    else if |c.ifMatch| > MAX_ETAG_BYTES then Some(EtagTooLong)
    else ValidateName(KvName(c.space, c.key))
  }

  function RequestOf(c: Command): Request
    requires c.Put? || c.Delete?
  {
    if c.Put? then PutRequest(KvName(c.space, c.key), c.body, c.ifMatch, c.ifNoneMatch)
    else DeleteRequest(KvName(c.space, c.key), c.ifMatch)
  }

  // ----- ETags -----

  function Digit(d: nat): Byte
    requires d < 10
  {
    48 + d
  }

  function Decimal(n: nat): (s: Bytes)
    ensures s != []
  {
    if n < 10 then [Digit(n)] else Decimal(n / 10) + [Digit(n % 10)]
  }

  const QUOTE: Bytes := [34]
  /** The bytes of a quote and `c9-`. */
  const ETAG_START: Bytes := [34, 99, 57, 45]

  function EtagFor(generation: Generation): Bytes {
    ETAG_START + Decimal(generation) + QUOTE
  }

  // ----- The session cache -----

  function CachedMutation(session: Session, sequence: nat, request: Request): Result<Option<Recorded>> {
    if sequence < session.sequence then Err(StaleSequence)
    else if sequence > session.sequence then Ok(None)
    else if session.request.Some? && session.result.Some? then
      if session.request.value == request then Ok(session.result) else Err(SequenceReused)
    else if session.request.None? && session.result.None? then Err(CacheIncomplete)
    else Err(CacheInconsistent)
  }

  /** The answer for a request already recorded; `None` if it is new. */
  function Cached(state: KvState, c: Command): Result<Option<Answer>>
    requires c.Put? || c.Delete?
  {
    if c.clientId !in state.sessions then Err(UnknownSession)
    else
      match CachedMutation(state.sessions[c.clientId], c.sequence, RequestOf(c))
      case Err(e) => Err(e)
      case Ok(None) => Ok(None)
      case Ok(Some(PutResult(response))) => if c.Put? then Ok(Some(PutDone(response))) else Err(ResultMismatch)
      case Ok(Some(DeleteResult(response))) => if c.Delete? then Ok(Some(DeleteDone(response))) else Err(ResultMismatch)
      case Ok(Some(RejectedResult(rejection))) => Err(Rejected(rejection))
  }

  function Record(state: KvState, c: Command, result: Recorded): KvState
    requires c.Put? || c.Delete?
  {
    state.(sessions := state.sessions[c.clientId := Session(c.sequence, Some(RequestOf(c)), Some(result))])
  }

  // ----- Mutations -----

  function CheckPut(current: Option<KvRecord>, ifMatch: Bytes, ifNoneMatch: bool): Option<Rejection> {
    if ifNoneMatch && current.Some? then Some(KeyExists)
    else if ifMatch != [] && (current.None? || current.value.etag != ifMatch) then Some(EtagMismatch)
    else None
  }

  function Lookup(state: KvState, name: KvName): Option<KvRecord> {
    if name in state.entries then Some(state.entries[name]) else None
  }

  /** A put that is not in the cache. */
  function FreshPut(state: KvState, c: Command): (KvState, Result<Answer>)
    requires c.Put?
  {
    var name := KvName(c.space, c.key);
    var check := CheckPut(Lookup(state, name), c.ifMatch, c.ifNoneMatch);
    if check.Some? then (Record(state, c, RejectedResult(check.value)), Err(Rejected(check.value)))
    else if state.nextGeneration + 1 > U64_MAX then
      (Record(state, c, RejectedResult(GenerationExhausted)), Err(Rejected(GenerationExhausted)))
    else
      var generation := state.nextGeneration;
      var etag := EtagFor(generation);
      var response := PutResponse(name, etag, generation, |c.body|);
      var written := state.(nextGeneration := generation + 1,
                            entries := state.entries[name := KvRecord(c.body, etag, generation)]);
      (Record(written, c, PutResult(response)), Ok(PutDone(response)))
  }

  /** A delete that is not in the cache. */
  function FreshDelete(state: KvState, c: Command): (KvState, Result<Answer>)
    requires c.Delete?
  {
    var name := KvName(c.space, c.key);
    var current := Lookup(state, name);
    if c.ifMatch != [] && (current.None? || c.ifMatch != current.value.etag) then
      (Record(state, c, RejectedResult(EtagMismatch)), Err(Rejected(EtagMismatch)))
    else
      var response :=
        if current.Some? then DeleteResponse(name, current.value.etag, current.value.generation, true)
        else DeleteResponse(name, [], 0, false);
      (Record(state.(entries := state.entries - {name}), c, DeleteResult(response)), Ok(DeleteDone(response)))
  }

  function Mutate(state: KvState, c: Command): (KvState, Result<Answer>)
    requires c.Put? || c.Delete?
  {
    var invalid := Validate(c);
    if invalid.Some? then (state, Err(invalid.value))
    else
      match Cached(state, c)
      case Err(e) => (state, Err(e))
      case Ok(Some(answer)) => (state, Ok(answer))
      case Ok(None) => if c.Put? then FreshPut(state, c) else FreshDelete(state, c)
  }

  function Apply(state: KvState, c: Command): (KvState, Result<Answer>) {
    match c
    case RegisterSession =>
      if state.nextClientId + 1 > U64_MAX then (state, Err(ClientIdsExhausted))
      else
        (state.(nextClientId := state.nextClientId + 1, sessions := state.sessions[state.nextClientId := NEW_SESSION]),
         Ok(SessionRegistered(state.nextClientId)))
    case ReadBarrier => (state, Ok(BarrierPassed))
    case _ => Mutate(state, c)
  }

  /** The state after a whole log of commands. */
  function ApplyAll(state: KvState, cs: seq<Command>): KvState {
    if cs == [] then state else Apply(ApplyAll(state, cs[..|cs| - 1]), cs[|cs| - 1]).0
  }

  // ----- What every command keeps -----

  /** A session remembers nothing, or one request with an answer of its own kind. */
  predicate SessionOk(session: Session) {
    if session.sequence == 0 then session.request.None? && session.result.None?
    else
      && session.request.Some? && session.result.Some?
      && (session.result.value.PutResult? ==> session.request.value.PutRequest?)
      && (session.result.value.DeleteResult? ==> session.request.value.DeleteRequest?)
  }

  ghost predicate Valid(state: KvState) {
    && 1 <= state.nextClientId <= U64_MAX && 1 <= state.nextGeneration <= U64_MAX
    && (forall id :: id in state.sessions ==> 1 <= id < state.nextClientId && SessionOk(state.sessions[id]))
    && (forall n :: n in state.entries ==>
          && ValidateName(n).None?
          && 1 <= state.entries[n].generation < state.nextGeneration
          && state.entries[n].etag == EtagFor(state.entries[n].generation))
    && (forall m, n :: m in state.entries && n in state.entries && m != n ==>
          state.entries[m].generation != state.entries[n].generation)
  }

  lemma ApplyValid(state: KvState, c: Command)
    requires Valid(state)
    ensures Valid(Apply(state, c).0)
  {
    hide EtagFor, FreshPut, FreshDelete, Cached;
    if (c.Put? || c.Delete?) && Validate(c).None? && Cached(state, c) == Ok(None) {
      if c.Put? {
        FreshPutValid(state, c);
      } else {
        FreshDeleteValid(state, c);
      }
    }
  }

  lemma FreshPutValid(state: KvState, c: Command)
    requires c.Put? && Valid(state) && Validate(c).None? && Cached(state, c) == Ok(None)
    ensures Valid(FreshPut(state, c).0)
  {
    hide EtagFor, CheckPut;
  }

  lemma FreshDeleteValid(state: KvState, c: Command)
    requires c.Delete? && Valid(state) && Validate(c).None? && Cached(state, c) == Ok(None)
    ensures Valid(FreshDelete(state, c).0)
  {
    hide EtagFor;
  }

  /** The cache errors that call themselves internal never happen. */
  lemma InternalErrorsUnreachable(state: KvState, c: Command)
    requires Valid(state)
    ensures var r := Apply(state, c).1;
            r.Err? ==> !r.error.CacheIncomplete? && !r.error.CacheInconsistent? && !r.error.ResultMismatch?
  {
    hide EtagFor;
    if (c.Put? || c.Delete?) && c.clientId in state.sessions {
      assert SessionOk(state.sessions[c.clientId]);
    }
  }

  // ----- Exactly once -----

  /** The client's latest request is `c`, answered by `result`. */
  predicate Remembers(state: KvState, c: Command, result: Recorded) {
    && (c.Put? || c.Delete?)
    && c.clientId in state.sessions
    && state.sessions[c.clientId] == Session(c.sequence, Some(RequestOf(c)), Some(result))
  }

  function AnswerOf(result: Recorded): Result<Answer> {
    match result
    case PutResult(response) => Ok(PutDone(response))
    case DeleteResult(response) => Ok(DeleteDone(response))
    case RejectedResult(rejection) => Err(Rejected(rejection))
  }

  /** A mutation that gets past validation and the cache is remembered with its answer. */
  lemma MutationRemembered(state: KvState, c: Command)
    requires c.Put? || c.Delete?
    requires Validate(c).None? && Cached(state, c) == Ok(None)
    ensures var (state', r) := Apply(state, c);
            exists result :: Remembers(state', c, result) && AnswerOf(result) == r
  {
    hide EtagFor;
    var (state', r) := Apply(state, c);
    var result := state'.sessions[c.clientId].result.value;
    assert Remembers(state', c, result) && AnswerOf(result) == r;
  }

  /** Any command but a later mutation of the same client leaves the memory alone. */
  lemma StillRemembers(state: KvState, c: Command, result: Recorded, other: Command)
    requires Valid(state) && Remembers(state, c, result)
    requires !(other.Mutates(c.clientId) && other.sequence > c.sequence)
    ensures Remembers(Apply(state, other).0, c, result)
  {
    hide EtagFor;
  }

  /** Exactly once: after any commands except later mutations of the same client, repeating
      the request changes nothing and answers as the first time. */
  lemma {:induction false} ExactlyOnce(state: KvState, c: Command, result: Recorded, others: seq<Command>)
    requires Valid(state) && Remembers(state, c, result) && Validate(c).None?
    requires forall k :: 0 <= k < |others| ==> !(others[k].Mutates(c.clientId) && others[k].sequence > c.sequence)
    ensures var state' := ApplyAll(state, others);
            Valid(state') && Remembers(state', c, result) && Apply(state', c) == (state', AnswerOf(result))
  {
    if others == [] {
      CachedAnswer(state, c, result);
    } else {
      var init := others[..|others| - 1];
      ExactlyOnce(state, c, result, init);
      hide Apply, Valid, Remembers, Validate;
      var before := ApplyAll(state, init);
      ApplyValid(before, others[|others| - 1]);
      StillRemembers(before, c, result, others[|others| - 1]);
      CachedAnswer(ApplyAll(state, others), c, result);
    }
  }

  lemma CachedAnswer(state: KvState, c: Command, result: Recorded)
    requires Valid(state) && Remembers(state, c, result) && Validate(c).None?
    ensures Apply(state, c) == (state, AnswerOf(result))
  {
    assert SessionOk(state.sessions[c.clientId]);
  }

  function SequenceOf(state: KvState, client: ClientId): nat {
    if client in state.sessions then state.sessions[client].sequence else 0
  }

  /** A client's sequence never goes back, and a mutation numbered at or below it has no effect. */
  lemma SequencesRise(state: KvState, c: Command, client: ClientId)
    requires Valid(state)
    ensures SequenceOf(state, client) <= SequenceOf(Apply(state, c).0, client)
    ensures client in state.sessions ==> client in Apply(state, c).0.sessions
    ensures (c.Put? || c.Delete?) && c.sequence <= SequenceOf(state, c.clientId) ==> Apply(state, c).0 == state
    ensures c.Mutates(client) && Apply(state, c).0 != state ==> SequenceOf(Apply(state, c).0, client) == c.sequence
  {
    hide EtagFor;
    if (c.Put? || c.Delete?) && c.clientId in state.sessions {
      assert SessionOk(state.sessions[c.clientId]);
    }
  }

  lemma {:induction false} SequencesRiseAll(state: KvState, cs: seq<Command>, client: ClientId)
    requires Valid(state)
    ensures Valid(ApplyAll(state, cs))
    ensures SequenceOf(state, client) <= SequenceOf(ApplyAll(state, cs), client)
  {
    hide Apply, Valid, SequenceOf;
    if cs != [] {
      var init := cs[..|cs| - 1];
      SequencesRiseAll(state, init, client);
      ApplyValid(ApplyAll(state, init), cs[|cs| - 1]);
      SequencesRise(ApplyAll(state, init), cs[|cs| - 1], client);
    }
  }

  /** At most once: when a mutation has changed the state, no later command of the same
      client and sequence changes it again, whatever lies between and whatever it asks. */
  lemma AtMostOnce(state: KvState, c: Command, between: seq<Command>, again: Command)
    requires Valid(state) && (c.Put? || c.Delete?) && Apply(state, c).0 != state
    requires again.Mutates(c.clientId) && again.sequence == c.sequence
    ensures var later := ApplyAll(Apply(state, c).0, between); Apply(later, again).0 == later
  {
    hide Apply, Valid, SequenceOf;
    var state' := Apply(state, c).0;
    ApplyValid(state, c);
    SequencesRise(state, c, c.clientId);
    SequencesRiseAll(state', between, c.clientId);
    SequencesRise(ApplyAll(state', between), again, c.clientId);
  }
}
