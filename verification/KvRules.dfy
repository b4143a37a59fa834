/** What each command does, said of the entries and sessions alone: when it is carried out,
    what it leaves behind, and which answer it gets otherwise. */
module KvRules {
  import opened Types
  import opened Kv

  /** A name within the limits. */
  predicate ProperName(space: Bytes, key: Bytes) {
    1 <= |space| <= 255 && 1 <= |key| <= 1024
  }

  /** A mutation that is not refused for its form. */
  predicate Proper(c: Command) {
    && (c.Put? || c.Delete?) && c.clientId > 0 && c.sequence > 0 && |c.ifMatch| <= 128
    && ProperName(c.space, c.key)
    && (c.Put? ==> |c.body| <= 65536 && (c.ifMatch == [] || !c.ifNoneMatch))
  }

  /** A mutation of a registered client, numbered past all of its earlier ones. */
  predicate New(state: KvState, c: Command) {
    (c.Put? || c.Delete?) && c.clientId in state.sessions && c.sequence > state.sessions[c.clientId].sequence
  }

  /** Its condition on the stored ETag is met. */
  predicate EtagMet(state: KvState, c: Command)
    requires c.Put? || c.Delete?
  {
    var name := KvName(c.space, c.key);
    c.ifMatch == [] || (name in state.entries && state.entries[name].etag == c.ifMatch)
  }

  // ----- Puts -----

  /** A put writes if and only if a create-only put finds no entry, the ETag asked for is the
      stored one and a generation is left. Each refusal has its own reason, and changes no
      entry. */
  lemma PutIff(state: KvState, c: Command)
    requires c.Put? && Proper(c) && New(state, c)
    ensures var (state', r) := Apply(state, c);
            var name := KvName(c.space, c.key);
            var absent, left := name !in state.entries, state.nextGeneration < U64_MAX;
            && (r.Ok? <==> (c.ifNoneMatch ==> absent) && EtagMet(state, c) && left)
            && (r == Err(Rejected(KeyExists)) <==> c.ifNoneMatch && !absent)
            && (r == Err(Rejected(EtagMismatch)) <==> !EtagMet(state, c))
            && (r == Err(Rejected(GenerationExhausted)) <==>
                  (c.ifNoneMatch ==> absent) && EtagMet(state, c) && !left)
            && (r.Ok? ==>
                  var generation := state.nextGeneration;
                  && state'.entries == state.entries[name := KvRecord(c.body, EtagFor(generation), generation)]
                  && r.value == PutDone(PutResponse(name, EtagFor(generation), generation, |c.body|))
                  && state'.nextGeneration == generation + 1)
            && (r.Err? ==> state'.entries == state.entries && state'.nextGeneration == state.nextGeneration)
  {
    hide EtagFor;
  }

  // ----- Deletes -----

  /** A delete is carried out if and only if the ETag asked for is the stored one. Then the name
      is gone and nothing else, and the answer says whether there was anything to delete. */
  lemma DeleteIff(state: KvState, c: Command)
    requires c.Delete? && Proper(c) && New(state, c)
    ensures var (state', r) := Apply(state, c);
            var name := KvName(c.space, c.key);
            && (r.Ok? <==> EtagMet(state, c))
            && (r.Err? <==> r == Err(Rejected(EtagMismatch)))
            && (r.Ok? ==>
                  && name !in state'.entries
                  && (forall n :: n != name ==> (n in state'.entries <==> n in state.entries))
                  && (forall n :: n != name && n in state.entries ==> state'.entries[n] == state.entries[n])
                  && r.value.DeleteDone? && r.value.delete.name == name
                  && (r.value.delete.deleted <==> name in state.entries)
                  && (name in state.entries ==>
                        && r.value.delete.etag == state.entries[name].etag
                        && r.value.delete.generation == state.entries[name].generation)
                  && (name !in state.entries ==> r.value.delete.etag == [] && r.value.delete.generation == 0))
            && (r.Err? ==> state'.entries == state.entries)
            && state'.nextGeneration == state.nextGeneration
  {
    hide EtagFor;
  }

  // ----- What is remembered -----

  /** A new mutation is remembered, carried out or not; the other sessions are left alone. */
  lemma NewIsRemembered(state: KvState, c: Command)
    requires Proper(c) && New(state, c)
    ensures var (state', r) := Apply(state, c);
            && state'.sessions.Keys == state.sessions.Keys && state'.nextClientId == state.nextClientId
            && (forall id :: id in state.sessions && id != c.clientId ==> state'.sessions[id] == state.sessions[id])
            && var s := state'.sessions[c.clientId];
               && s.sequence == c.sequence && s.request == Some(RequestOf(c)) && s.result.Some?
               && AnswerOf(s.result.value) == r
  {
    hide EtagFor;
  }

  /** A proper mutation that is not new changes nothing: an unknown client is told so, an older
      number is stale, and the last number is answered again if and only if it asks the same. */
  lemma OldIff(state: KvState, c: Command)
    requires Valid(state) && Proper(c) && !New(state, c)
    ensures var (state', r) := Apply(state, c);
            && state' == state
            && (r == Err(UnknownSession) <==> c.clientId !in state.sessions)
            && (r == Err(StaleSequence) <==>
                  c.clientId in state.sessions && c.sequence < state.sessions[c.clientId].sequence)
            && (r == Err(SequenceReused) <==>
                  && c.clientId in state.sessions && c.sequence == state.sessions[c.clientId].sequence
                  && state.sessions[c.clientId].request != Some(RequestOf(c)))
            && (c.clientId in state.sessions && c.sequence == state.sessions[c.clientId].sequence
                && state.sessions[c.clientId].request == Some(RequestOf(c)) ==>
                  state.sessions[c.clientId].result.Some? && r == AnswerOf(state.sessions[c.clientId].result.value))
  {
    hide EtagFor;
    if c.clientId in state.sessions {
      assert SessionOk(state.sessions[c.clientId]);
    }
  }

  /** Two mutations ask the same exactly if they differ at most in client and number. */
  lemma SameRequestIff(c: Command, d: Command)
    requires (c.Put? || c.Delete?) && (d.Put? || d.Delete?)
    ensures RequestOf(c) == RequestOf(d) <==> d == c.(clientId := d.clientId, sequence := d.sequence)
  {
  }

  // ----- What is refused for its form -----

  /** What is wrong with a mutation, in the order in which it is noticed. */
  function Faults(c: Command): seq<(bool, KvError)>
    requires c.Put? || c.Delete?
  {
    [(c.clientId == 0, ClientNotRegistered),
     (c.sequence == 0, SequenceNotPositive),
     (|c.ifMatch| > 128, EtagTooLong),
     (c.Put? && c.ifMatch != [] && c.ifNoneMatch, ExclusivePreconditions),
     (c.Put? && |c.body| > 65536, ValueTooLarge),
     (|c.space| == 0, NamespaceEmpty),
     (|c.space| > 255, NamespaceTooLong),
     (|c.key| == 0, KeyEmpty),
     (|c.key| > 1024, KeyTooLong)]
  }

  /** A mutation that is not proper changes nothing and is told the first of its faults. */
  lemma ImproperIff(state: KvState, c: Command) returns (k: nat)
    requires (c.Put? || c.Delete?) && !Proper(c)
    ensures k < |Faults(c)| && Faults(c)[k].0 && forall j :: 0 <= j < k ==> !Faults(c)[j].0
    ensures Apply(state, c) == (state, Err(Faults(c)[k].1))
  {
    hide FreshPut, FreshDelete, Cached;
    k := if c.clientId == 0 then 0 else if c.sequence == 0 then 1 else if |c.ifMatch| > 128 then 2
         else if c.Put? && c.ifMatch != [] && c.ifNoneMatch then 3 else if c.Put? && |c.body| > 65536 then 4
         else if |c.space| == 0 then 5 else if |c.space| > 255 then 6 else if |c.key| == 0 then 7 else 8;
  }

  // ----- Sessions and barriers -----

  /** Registering gives the next client id and an empty session, until the ids run out; a
      barrier always passes and changes nothing. */
  lemma OtherCommands(state: KvState)
    ensures Apply(state, ReadBarrier) == (state, Ok(BarrierPassed))
    ensures var (state', r) := Apply(state, RegisterSession);
            && (r.Ok? <==> state.nextClientId < U64_MAX)
            && (r.Err? ==> r.error == ClientIdsExhausted && state' == state)
            && (r.Ok? ==>
                  && r.value == SessionRegistered(state.nextClientId)
                  && state'.nextClientId == state.nextClientId + 1
                  && state'.sessions == state.sessions[state.nextClientId := Session(0, None, None)]
                  && state'.entries == state.entries && state'.nextGeneration == state.nextGeneration)
  {
  }
}
