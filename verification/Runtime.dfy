/** The runtime around a node (basisdb-node/src/runtime.rs): persist, then send, then apply. */
module Runtime {
  import opened Types
  import opened RaftLog
  import opened Event
  import opened RaftCore
  import opened Numbering
  import Proposals
  import RaftNode
  import Cluster
  import H = Heartbeat
  import RaftObject
  import Kv
  import KvMachine
  import Store
  import SR = StoreRun
  import StoreHandle
  import WalLog

  /** The key-value state after being fed entries; a payload that does not decode is skipped. */
  function Feed(decode: Bytes -> Option<Kv.Command>, state: Kv.KvState, entries: seq<Entry>): Kv.KvState {
    if entries == [] then state
    else
      var before, entry := Feed(decode, state, entries[..|entries| - 1]), entries[|entries| - 1];
      if entry.payload.Command? && decode(entry.payload.bytes).Some?
          then Kv.Apply(before, decode(entry.payload.bytes).value).0
      else before
  }

  /** A caller that waits for its command to be applied. */
  datatype Waiter = Waiter(id: nat, command: Bytes)

  /** The result of applying the command, `None` if its payload did not decode, or word that
      another command was applied in its place. */
  datatype Reply = Answered(result: Option<Kv.Result<Kv.Answer>>) | Superseded

  datatype Answer = Answer(id: nat, index: LogIndex, command: Bytes, reply: Reply)

  /** What applying the `k`th command gave, at its place in the sequence. */
  ghost function ResultAt(decode: Bytes -> Option<Kv.Command>, applied: seq<Entry>, k: nat)
      : Option<Kv.Result<Kv.Answer>>
    requires k < |applied| && applied[k].payload.Command?
  {
    match decode(applied[k].payload.bytes)
    case None => None
    case Some(c) => Some(Kv.Apply(Feed(decode, Kv.FRESH_STATE, applied[..k]), c).1)
  }

  /** The answer is what applying the caller's own command at its index gave, or the command at
      that index is another. */
  ghost predicate Genuine(decode: Bytes -> Option<Kv.Command>, applied: seq<Entry>, a: Answer) {
    exists k :: 0 <= k < |applied| && AnsweredAt(decode, applied, a, k)
  }

  ghost predicate AnsweredAt(decode: Bytes -> Option<Kv.Command>, applied: seq<Entry>, a: Answer, k: nat)
    requires k < |applied|
  {
    && applied[k].index == a.index && applied[k].payload.Command?
    && match a.reply
       case Answered(result) => applied[k].payload.bytes == a.command && result == ResultAt(decode, applied, k)
       case Superseded => applied[k].payload.bytes != a.command
  }

  ghost predicate AllGenuine(decode: Bytes -> Option<Kv.Command>, applied: seq<Entry>, answers: seq<Answer>) {
    forall a :: a in answers ==> Genuine(decode, applied, a)
  }

  /** The caller still waits, or has been answered. */
  ghost predicate Kept(waiters: map<LogIndex, Waiter>, answers: seq<Answer>, index: LogIndex, w: Waiter) {
    || (index in waiters && waiters[index] == w)
    || exists a :: a in answers && a.id == w.id && a.index == index && a.command == w.command
  }

  ghost predicate NoneForgotten(was: map<LogIndex, Waiter>, waiters: map<LogIndex, Waiter>, answers: seq<Answer>) {
    forall index :: index in was ==> Kept(waiters, answers, index, was[index])
  }

  datatype RuntimeError = StoreFailed(error: Store.StoreError) | SnapshotTransportUnsupported | Halted

  /** In any cluster with the machine `before` at `i`, the step leaves everything as it was but
      that machine, which becomes `after`, and the network, which gains what was sent. */
  ghost predicate MovesAs(before: Cluster.Machine, i: NodeId, step: Cluster.Step, after: Cluster.Machine,
                          out: seq<Message>) {
    forall c: Cluster.ClusterState :: Cluster.Possible(c, i, step) && c.machines[i] == before ==>
      Cluster.Do(c, i, step) == Cluster.ClusterState(c.voters, c.machines[i := after], c.net + (set m | m in out))
  }

  /** What leaves the node when time passes: nothing before the deadline, and a leader's heartbeat
      as `H.Beats` says. */
  ghost predicate TickSends(before: Node, expired: bool, role: Role, out: seq<Message>) {
    && (!expired ==> out == [])
    && (expired && before.role.Leader? ==>
          role.Leader? && H.Beats(before.core, before.role.state, role.state, Effects(false, out, [])))
  }

  class NodeRuntime {
    const node: RaftObject.RaftMachine
    const store: StoreHandle.DeltaStore
    const kv: KvMachine.Machine
    const decode: Bytes -> Option<Kv.Command>
    /** Everything handed to the transport, and everything fed to the machine. */
    var sent: seq<Message>
    ghost var applied: seq<Entry>
    /** Who waits for which index, and what callers have been told. */
    var waiters: map<LogIndex, Waiter>
    var nextProposal: nat
    var answers: seq<Answer>
    /** An error stops the node for good. */
    var failed: bool

    /** What the cluster sees of this node. */
    ghost function Machine(): Cluster.Machine
      reads this, node, store
    {
      Cluster.Machine(node.Value(), store.durable, applied)
    }

    /** The data is what the commands applied so far make of an empty state, and every answer was
        that of the caller's own command. */
    ghost predicate Valid()
      reads this, node, store, store.wal, kv
    {
      && store.wal.Valid() && node.log.Contiguous() && kv.Value() == Feed(decode, Kv.FRESH_STATE, applied)
      && AllGenuine(decode, applied, answers)
    }

    /** Starts from what the store holds, as a machine of the cluster does after a crash. */
    constructor (id: NodeId, opts: Options, store: StoreHandle.DeltaStore, decode: Bytes -> Option<Kv.Command>)
      requires store.wal.Valid() && store.durable.log.Contiguous()
      ensures Valid() && !failed && sent == [] && this.store == store && node.id == id && fresh(node) && fresh(kv)
      ensures forall before: Cluster.Machine ::
                before.durable == store.durable && before.node.core.id == id && before.node.core.opts == opts ==>
                  MovesAs(before, id, Cluster.CrashStep, Machine(), [])
    {
      var machine := new RaftObject.RaftMachine(id, opts, store.durable);
      var data := new KvMachine.Machine();
      node := machine;
      kv := data;
      this.store := store;
      this.decode := decode;
      sent := [];
      applied := [];
      waiters := map[];
      nextProposal := 1;
      answers := [];
      failed := false;
      new;
      FeedNone(decode, Kv.FRESH_STATE);
      forall before: Cluster.Machine
        | before.durable == store.durable && before.node.core.id == id && before.node.core.opts == opts
        ensures MovesAs(before, id, Cluster.CrashStep, Machine(), [])
      {
        RestartMoves(before, id);
      }
    }

    /** Lets time pass. A step that reports no error is the step of the cluster; after an
        error nothing is sent or applied any more. No caller is forgotten. */
    method Tick(expired: bool, f: SR.SaveFaults) returns (error: Option<RuntimeError>)
      requires Valid()
      modifies this, node, store, store.wal, kv
      ensures Valid() && failed == (old(failed) || error.Some?) && (old(failed) ==> Machine() == old(Machine()))
      ensures error.None? ==>
                && old(sent) <= sent
                && MovesAs(old(Machine()), node.id, Cluster.TickStep(expired), Machine(), sent[|old(sent)|..])
                && TickSends(old(node.Value()), expired, node.role, sent[|old(sent)|..])
      ensures error.Some? ==> sent == old(sent) && applied == old(applied)
      ensures old(answers) <= answers && NoneForgotten(old(waiters), waiters, answers)
    {
      hide MovesAs, AllGenuine, Feed, RaftNode.StepEvent, Log.Contiguous, NoneForgotten, SR.Settled, H.Beats,
           TickSends;
      NothingForgotten(waiters, answers);
      if failed {
        return Some(Halted);
      }
      ghost var before := Machine();
      EventNumbered(node.Value(), Event.Tick(expired));
      var effects := node.StepEvent(Event.Tick(expired));
      ghost var stepped := node.Value();
      error := HandleEffects(effects, f);
      failed := error.Some?;
      if error.None? {
        assert sent[|old(sent)|..] == effects.messages;
        StepMoves(before, node.id, Cluster.TickStep(expired), stepped, effects);
        TickSent(before.node, expired, node.role, effects);
      }
    }

    /** Handles a message of a peer. */
    method Step(m: Message, recent: bool, f: SR.SaveFaults) returns (error: Option<RuntimeError>)
      requires Valid() && Fits(node.Value(), m)
      modifies this, node, store, store.wal, kv
      ensures Valid() && failed == (old(failed) || error.Some?) && (old(failed) ==> Machine() == old(Machine()))
      ensures error.None? ==>
                && old(sent) <= sent
                && MovesAs(old(Machine()), node.id, Cluster.DeliverStep(m, recent), Machine(), sent[|old(sent)|..])
      ensures error.Some? ==> sent == old(sent) && applied == old(applied)
      ensures old(answers) <= answers && NoneForgotten(old(waiters), waiters, answers)
    {
      hide MovesAs, AllGenuine, Feed, RaftNode.StepEvent, Log.Contiguous, NoneForgotten, SR.Settled, Fits, H.Beats;
      NothingForgotten(waiters, answers);
      if failed {
        return Some(Halted);
      }
      ghost var before := Machine();
      EventNumbered(node.Value(), Receive(m, recent));
      var effects := node.StepEvent(Receive(m, recent));
      ghost var stepped := node.Value();
      error := HandleEffects(effects, f);
      failed := error.Some?;
      if error.None? {
        assert sent[|old(sent)|..] == effects.messages;
        StepMoves(before, node.id, Cluster.DeliverStep(m, recent), stepped, effects);
      }
    }

    /** Proposes a command; a refusal moves nothing. The command goes where nothing was, and its
        caller waits for that index or is answered at once. */
    method Propose(command: Bytes, f: SR.SaveFaults)
        returns (r: Option<RaftNode.ProposeOutcome>, error: Option<RuntimeError>)
      requires Valid()
      modifies this, node, store, store.wal, kv
      ensures Valid() && failed == (old(failed) || error.Some?)
      ensures r.Some? ==> r.value == RaftNode.Propose(old(node.Value()), command)
      ensures r.None? || !r.value.Proposed? ==> Machine() == old(Machine()) && sent == old(sent)
      ensures r.Some? && r.value.Proposed? && error.None? ==>
                && old(sent) <= sent
                && MovesAs(old(Machine()), node.id, Cluster.ProposeStep(command), Machine(), sent[|old(sent)|..])
      ensures error.Some? ==> sent == old(sent) && applied == old(applied)
      ensures r.Some? && r.value.Proposed? ==>
                Proposals.Placed(old(node.log), node.log, old(node.term), r.value.index, command)
      ensures r.Some? && r.value.Proposed? && error.None? ==>
                Kept(waiters, answers, r.value.index, Waiter(old(nextProposal), command))
      ensures r.None? <==> old(failed) || old(nextProposal) >= U64_MAX
      ensures old(answers) <= answers && nextProposal == old(nextProposal) + if r.None? then 0 else 1
      ensures NoneForgotten(if r.Some? && r.value.Proposed? then old(waiters) - {r.value.index} else old(waiters),
                            waiters, answers)
    {
      hide MovesAs, AllGenuine, Feed, RaftNode.Propose, Proposals.Placed, Kept, NoneForgotten, SR.Settled;
      NothingForgotten(waiters, answers);
      if failed {
        return None, Some(Halted);
      }
      if nextProposal >= U64_MAX {
        return None, None;
      }
      var id := nextProposal;
      nextProposal := nextProposal + 1;
      ghost var before := Machine();
      var outcome := node.Propose(command);
      r, error := Some(outcome), None;
      if outcome.Proposed? {
        Proposals.ProposalPlaced(before.node, command);
        ProposalNumbered(before.node, command);
        error := Launch(outcome, id, command, f, before);
        failed := error.Some?;
      }
    }

    /** Lets the caller wait and carries out the effects of a proposal. */
    method Launch(outcome: RaftNode.ProposeOutcome, id: nat, command: Bytes, f: SR.SaveFaults,
                  ghost before: Cluster.Machine)
        returns (error: Option<RuntimeError>)
      requires Valid() && RaftNode.Propose(before.node, command) == outcome && outcome.Proposed?
      requires Machine() == before.(node := outcome.node)
      modifies this`sent, this`applied, this`waiters, this`answers, node`lastApplied, store, store.wal, kv
      ensures Valid() && old(answers) <= answers
      ensures error.None? ==>
                && old(sent) <= sent
                && MovesAs(before, node.id, Cluster.ProposeStep(command), Machine(), sent[|old(sent)|..])
                && Kept(waiters, answers, outcome.index, Waiter(id, command))
      ensures error.Some? ==> sent == old(sent) && applied == old(applied)
      ensures NoneForgotten(old(waiters) - {outcome.index}, waiters, answers)
    {
      hide MovesAs, AllGenuine, Feed, RaftNode.Propose, Log.Contiguous, WalLog.Holds, SR.Settled, Kept, NoneForgotten;
      waiters := waiters[outcome.index := Waiter(id, command)];
      error := HandleEffects(outcome.effects, f);
      if error.Some? {
        GiveUp(outcome.index, id);
        assert waiters == old(waiters) - {outcome.index};
        NothingForgotten(waiters, answers);
      } else {
        WaiterAdded(old(waiters), outcome.index, Waiter(id, command), waiters, answers);
        assert sent[|old(sent)|..] == outcome.effects.messages;
        StepMoves(before, node.id, Cluster.ProposeStep(command), outcome.node, outcome.effects);
      }
    }

    /** A caller that does not wait any longer is forgotten, and nobody else. */
    method GiveUp(index: LogIndex, id: nat)
      modifies this`waiters
      ensures waiters == map i | i in old(waiters) && (i == index ==> old(waiters)[i].id != id) :: old(waiters)[i]
    {
      if index in waiters && waiters[index].id == id {
        waiters := waiters - {index};
      }
    }

    /** Saves before anything is sent, and applies last. When the save fails nothing is sent
        and nothing is applied. What the store holds when messages leave is on stable storage
        if it was before or if there was something to save. */
    method HandleEffects(effects: Effects, f: SR.SaveFaults) returns (error: Option<RuntimeError>)
      requires Valid()
      modifies this`sent, this`applied, this`waiters, this`answers, node`lastApplied, store, store.wal, kv
      ensures Valid()
      ensures old(answers) <= answers && NoneForgotten(old(waiters), waiters, answers)
      ensures error.Some? ==> waiters == old(waiters) && answers == old(answers)
      ensures sent == old(sent) || (effects.persist ==> store.durable == node.Core().p)
      ensures error.None? ==>
                && effects.sendSnapshots == []
                && sent == old(sent) + effects.messages
                && store.durable == (if effects.persist then node.Core().p else old(store.durable))
                && (node.Core(), applied) == Cluster.ApplyCommitted(old(node.Core()), old(applied))
                && old(applied) <= applied
                && kv.Value() == Feed(decode, old(kv.Value()), applied[|old(applied)|..])
                && (effects.persist || old(SR.Settled(store.wal.Value())) ==> SR.Settled(store.wal.Value()))
      ensures error.Some? ==>
                sent == old(sent) && applied == old(applied) && node.Core() == old(node.Core())
                    && kv.Value() == old(kv.Value())
    {
      hide SR.Save, Feed, WalLog.Holds, AllGenuine, Kept;
      NothingForgotten(waiters, answers);
      if effects.persist {
        var saved := store.Save(node.Core().p, f);
        SavedMeans(store.wal.crc, store.codec, old(store.Value()), node.Core().p, f);
        if saved.Failed? {
          return Some(StoreFailed(saved.error));
        }
        SavedSettles(store.wal.crc, store.codec, old(store.Value()), node.Core().p, f, store.wal.records);
      }
      if effects.sendSnapshots != [] {
        return Some(SnapshotTransportUnsupported);
      }
      sent := sent + effects.messages;
      ApplyCommitted();
      error := None;
    }

    /** Feeds the machine one committed command after the other, and tells who waits for it. */
    method ApplyCommitted()
      requires Valid()
      modifies this`applied, this`waiters, this`answers, node`lastApplied, kv
      ensures Valid() && old(applied) <= applied
      ensures old(answers) <= answers && NoneForgotten(old(waiters), waiters, answers)
      ensures forall e :: e in applied[|old(applied)|..] ==> e.index !in waiters
      ensures (node.Core(), applied) == Cluster.ApplyCommitted(old(node.Core()), old(applied))
      ensures kv.Value() == Feed(decode, old(kv.Value()), applied[|old(applied)|..])
    {
      hide RaftNode.NextCommitted, Feed, WalLog.Holds, Cluster.ApplyCommitted, AllGenuine, NoneForgotten;
      NothingForgotten(waiters, answers);
      while true
        invariant store.wal.Valid() && node.log.Contiguous() && old(applied) <= applied
        invariant node.Core() == old(node.Core()).(lastApplied := node.lastApplied)
        invariant Cluster.ApplyCommitted(node.Core(), applied) == Cluster.ApplyCommitted(old(node.Core()), old(applied))
        invariant kv.Value() == Feed(decode, Kv.FRESH_STATE, applied) && AllGenuine(decode, applied, answers)
        invariant old(answers) <= answers && NoneForgotten(old(waiters), waiters, answers)
        invariant forall e :: e in applied[|old(applied)|..] ==> e.index !in waiters
        decreases if node.commitIndex > node.lastApplied then node.commitIndex - node.lastApplied else 0
      {
        var next := NextCommitted();
        ApplyUnfolds(node.Core(), applied);
        if next.None? {
          assert applied == old(applied) + applied[|old(applied)|..];
          FeedSplit(decode, Kv.FRESH_STATE, old(applied), applied[|old(applied)|..]);
          return;
        }
        NextInRange(node.Core(), node.lastApplied + 1);
        assert (applied + [next.value])[|old(applied)|..] == applied[|old(applied)|..] + [next.value];
        ApplyOne(next.value, old(waiters));
      }
    }

    /** Feeds the machine one command and tells who waits for it. */
    method ApplyOne(entry: Entry, ghost was: map<LogIndex, Waiter>)
      requires entry.payload.Command? && kv.Value() == Feed(decode, Kv.FRESH_STATE, applied)
      requires AllGenuine(decode, applied, answers) && NoneForgotten(was, waiters, answers)
      modifies this`applied, this`waiters, this`answers, node`lastApplied, kv
      ensures applied == old(applied) + [entry] && kv.Value() == Feed(decode, Kv.FRESH_STATE, applied)
      ensures node.Core() == old(node.Core()).(lastApplied := node.lastApplied)
      ensures node.lastApplied == entry.index
      ensures AllGenuine(decode, applied, answers) && NoneForgotten(was, waiters, answers)
      ensures old(answers) <= answers && waiters == old(waiters) - {entry.index}
    {
      hide Kv.Apply, Feed, AllGenuine, NoneForgotten, ResultAt;
      FeedMore(decode, Kv.FRESH_STATE, applied, entry);
      ResultIs(decode, applied, entry);
      StillGenuine(decode, applied, answers, entry);
      applied := applied + [entry];
      var result: Option<Kv.Result<Kv.Answer>> := None;
      if decode(entry.payload.bytes).Some? {
        var answer := kv.Apply(decode(entry.payload.bytes).value);
        result := Some(answer);
      }
      node.Advance(entry.index);
      CompleteWaiter(entry, result, was);
    }

    /** Tells whoever waits for the index the result, if the command is the one they proposed, and
        otherwise that it is not. */
    method CompleteWaiter(entry: Entry, result: Option<Kv.Result<Kv.Answer>>, ghost was: map<LogIndex, Waiter>)
      requires entry.payload.Command? && applied != [] && applied[|applied| - 1] == entry
      requires result == ResultAt(decode, applied, |applied| - 1)
      requires AllGenuine(decode, applied, answers) && NoneForgotten(was, waiters, answers)
      modifies this`waiters, this`answers
      ensures AllGenuine(decode, applied, answers) && NoneForgotten(was, waiters, answers)
      ensures old(answers) <= answers && waiters == old(waiters) - {entry.index}
      ensures entry.index in old(waiters) ==>
                var w := old(waiters)[entry.index];
                var reply := if w.command == entry.payload.bytes then Answered(result) else Superseded;
                answers == old(answers) + [Answer(w.id, entry.index, w.command, reply)]
    {
      hide ResultAt;
      if entry.index in waiters {
        var w := waiters[entry.index];
        var reply := if w.command == entry.payload.bytes then Answered(result) else Superseded;
        var a := Answer(w.id, entry.index, w.command, reply);
        assert AnsweredAt(decode, applied, a, |applied| - 1);
        OneMoreAnswer(was, waiters, answers, entry.index, a);
        waiters := waiters - {entry.index};
        answers := answers + [a];
      }
    }

    /** The first committed command past the last one applied. */
    method NextCommitted() returns (r: Option<Entry>)
      ensures r == RaftNode.NextCommitted(node.Core(), node.lastApplied + 1)
    {
      var index := node.lastApplied + 1;
      while index <= node.commitIndex
        invariant RaftNode.NextCommitted(node.Core(), index)
            == RaftNode.NextCommitted(node.Core(), node.lastApplied + 1)
      {
        var entry := node.log.Get(index);
        if entry.Some? && entry.value.payload.Command? {
          return entry;
        }
        index := index + 1;
      }
      r := None;
    }
  }

  /** Persisting, sending and applying makes of a stepped node what the cluster makes of it. */
  lemma StepMoves(before: Cluster.Machine, i: NodeId, step: Cluster.Step, node: Node, effects: Effects)
    requires effects.sendSnapshots == []
    requires match step
             case TickStep(expired) => RaftNode.StepEvent(before.node, Event.Tick(expired)) == (node, effects)
             case DeliverStep(m, recent) => RaftNode.StepEvent(before.node, Receive(m, recent)) == (node, effects)
             case ProposeStep(command) =>
               var r := RaftNode.Propose(before.node, command);
               r.Proposed? && (r.node, r.effects) == (node, effects)
             case _ => false
    ensures MovesAs(before, i, step, Cluster.HandleEffects(before, node, effects), effects.messages)
  {
    hide RaftNode.StepEvent, RaftNode.Propose, RaftNode.RequestReadIndex, Cluster.ApplyCommitted;
  }

  lemma TickSent(before: Node, expired: bool, role: Role, e: Effects)
    requires before.core.p.log.Contiguous() && e.sendSnapshots == []
    requires var (node, effects) := RaftNode.StepEvent(before, Event.Tick(expired)); node.role == role && effects == e
    ensures TickSends(before, expired, role, e.messages)
  {
    hide RaftNode.StepEvent;
    H.IdleTick(before);
    if expired && before.role.Leader? {
      H.Heartbeat(before);
    }
  }

  lemma RestartMoves(before: Cluster.Machine, i: NodeId)
    ensures var core := before.node.core;
            var after := Cluster.Machine(RaftNode.Restore(core.id, core.opts, before.durable), before.durable, []);
            MovesAs(before, i, Cluster.CrashStep, after, [])
  {
    hide RaftNode.StepEvent, RaftNode.Propose, RaftNode.RequestReadIndex;
  }

  lemma SavedMeans(crc: WalLog.WalFormat.Checksum, codec: Store.Codec, st: SR.RaftStore, current: Persistent,
                   f: SR.SaveFaults)
    requires WalLog.Wellformed(st.wal)
    ensures var (st', r) := SR.Save(crc, codec, st, current, f);
            st'.durable == if r.Done? then current else st.durable
  {
    hide WalLog.Append, Store.DeltaFor;
  }

  lemma SavedSettles(crc: WalLog.WalFormat.Checksum, codec: Store.Codec, st: SR.RaftStore, current: Persistent,
                     f: SR.SaveFaults, rs: seq<seq<WalLog.WalFormat.Record>>)
    requires WalLog.Wellformed(st.wal) && SR.Save(crc, codec, st, current, f).1.Done?
    requires WalLog.Holds(crc, SR.Save(crc, codec, st, current, f).0.wal, rs)
    ensures SR.Settled(SR.Save(crc, codec, st, current, f).0.wal)
  {
    hide WalLog.Append, Store.DeltaFor, WalLog.Holds;
    SR.HealthyLen(crc, SR.Save(crc, codec, st, current, f).0.wal, rs);
  }

  lemma NothingForgotten(waiters: map<LogIndex, Waiter>, answers: seq<Answer>)
    ensures NoneForgotten(waiters, waiters, answers)
  {
  }

  lemma WaiterAdded(was: map<LogIndex, Waiter>, index: LogIndex, w: Waiter, waiters: map<LogIndex, Waiter>,
                    answers: seq<Answer>)
    requires NoneForgotten(was[index := w], waiters, answers)
    ensures Kept(waiters, answers, index, w) && NoneForgotten(was - {index}, waiters, answers)
  {
    hide Kept;
    assert was[index := w][index] == w;
    forall i | i in was - {index} ensures Kept(waiters, answers, i, was[i]) {
      assert was[index := w][i] == was[i];
    }
  }

  lemma OneMoreAnswer(was: map<LogIndex, Waiter>, waiters: map<LogIndex, Waiter>, answers: seq<Answer>,
                      index: LogIndex, a: Answer)
    requires NoneForgotten(was, waiters, answers) && index in waiters
    requires a.id == waiters[index].id && a.index == index && a.command == waiters[index].command
    ensures NoneForgotten(was, waiters - {index}, answers + [a])
  {
    forall i | i in was ensures Kept(waiters - {index}, answers + [a], i, was[i]) {
      if i in waiters && waiters[i] == was[i] {
        assert a in answers + [a];
      } else {
        var b :| b in answers && b.id == was[i].id && b.index == i && b.command == was[i].command;
        assert b in answers + [a];
      }
    }
  }

  lemma ResultIs(decode: Bytes -> Option<Kv.Command>, applied: seq<Entry>, entry: Entry)
    requires entry.payload.Command?
    ensures ResultAt(decode, applied + [entry], |applied|) ==
            if decode(entry.payload.bytes).None? then None
            else Some(Kv.Apply(Feed(decode, Kv.FRESH_STATE, applied), decode(entry.payload.bytes).value).1)
  {
    assert (applied + [entry])[..|applied|] == applied;
  }

  /** Applying more takes nothing away from an answer. */
  lemma StillGenuine(decode: Bytes -> Option<Kv.Command>, applied: seq<Entry>, answers: seq<Answer>, entry: Entry)
    requires AllGenuine(decode, applied, answers)
    ensures AllGenuine(decode, applied + [entry], answers)
  {
    forall a | a in answers ensures Genuine(decode, applied + [entry], a) {
      var k :| 0 <= k < |applied| && AnsweredAt(decode, applied, a, k);
      assert (applied + [entry])[..k] == applied[..k];
      assert AnsweredAt(decode, applied + [entry], a, k);
    }
  }

  lemma FeedNone(decode: Bytes -> Option<Kv.Command>, state: Kv.KvState)
    ensures Feed(decode, state, []) == state
  {
  }

  /** One round of the apply loop. */
  lemma ApplyUnfolds(core: Core, applied: seq<Entry>)
    ensures var next := RaftNode.NextCommitted(core, core.lastApplied + 1);
            Cluster.ApplyCommitted(core, applied) ==
            if next.Some? && core.lastApplied < next.value.index <= core.commitIndex
            then Cluster.ApplyCommitted(core.(lastApplied := next.value.index), applied + [next.value])
            else (core, applied)
  {
    hide RaftNode.NextCommitted;
  }

  lemma FeedMore(decode: Bytes -> Option<Kv.Command>, state: Kv.KvState, entries: seq<Entry>, entry: Entry)
    ensures Feed(decode, state, entries + [entry]) ==
            if entry.payload.Command? && decode(entry.payload.bytes).Some?
            then Kv.Apply(Feed(decode, state, entries), decode(entry.payload.bytes).value).0
            else Feed(decode, state, entries)
  {
    assert (entries + [entry])[..|entries|] == entries;
  }

  /** In a numbered log the next committed command lies in range. */
  lemma {:induction false} NextInRange(core: Core, from: LogIndex)
    requires core.p.log.Contiguous()
    ensures var r := RaftNode.NextCommitted(core, from);
            r.Some? ==> from <= r.value.index <= core.commitIndex && r.value.payload.Command?
    decreases core.commitIndex + 1 - from
  {
    if from <= core.commitIndex {
      NextInRange(core, from + 1);
    }
  }

  predicate HasCommand(log: Log, i: LogIndex) {
    log.Get(i).Some? && log.Get(i).value.payload.Command?
  }

  /** What is applied next is the first committed command from there on, if there is one. */
  lemma {:induction false} NextIs(core: Core, from: LogIndex)
    ensures match RaftNode.NextCommitted(core, from)
            case None => forall i: LogIndex :: from <= i <= core.commitIndex ==> !HasCommand(core.p.log, i)
            case Some(e) =>
              exists i: LogIndex ::
                && from <= i <= core.commitIndex && HasCommand(core.p.log, i) && core.p.log.Get(i) == Some(e)
                && forall j: LogIndex :: from <= j < i ==> !HasCommand(core.p.log, j)
    decreases core.commitIndex + 1 - from
  {
    if from <= core.commitIndex && !HasCommand(core.p.log, from) {
      NextIs(core, from + 1);
      var r := RaftNode.NextCommitted(core, from + 1);
      assert r == RaftNode.NextCommitted(core, from);
      if r.Some? {
        var i: LogIndex :| && from + 1 <= i <= core.commitIndex && HasCommand(core.p.log, i)
                           && core.p.log.Get(i) == r
                           && forall j: LogIndex :: from + 1 <= j < i ==> !HasCommand(core.p.log, j);
        assert forall j: LogIndex :: from <= j < i ==> !HasCommand(core.p.log, j);
      }
    }
  }

  lemma {:induction false} FeedSplit(decode: Bytes -> Option<Kv.Command>, state: Kv.KvState, a: seq<Entry>,
                                     b: seq<Entry>)
    ensures Feed(decode, state, a + b) == Feed(decode, Feed(decode, state, a), b)
  {
    if b == [] {
      assert a + b == a;
    } else {
      var init := b[..|b| - 1];
      assert (a + b)[..|a + b| - 1] == a + init;
      FeedSplit(decode, state, a, init);
    }
  }
}
