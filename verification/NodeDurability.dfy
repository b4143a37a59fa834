/** The store of a node in a cluster: Log Matching is what makes its deltas replay exactly. */
module NodeDurability {
  import opened Types
  import opened Event
  import opened RaftCore
  import FollowerRole
  import opened RaftNode
  import opened Cluster
  import opened Merging
  import opened Safety
  import opened Theorems
  import Store
  import StoreRun
  import WalFormat
  import WalLog
  import H = History

  function PersistentOf(c: ClusterState, i: NodeId): Persistent
    requires i in c.machines
  {
    c.machines[i].node.core.p
  }

  /** Any two states of one node in a run can be saved one after the other. */
  lemma RunStatesFollow(run: Run, i: NodeId, j: nat, k: nat)
    requires IsRun(run) && j <= k < |run.states| && i in run.states[j].machines
    ensures i in run.states[k].machines
    ensures Store.Advances(PersistentOf(run.states[j], i), PersistentOf(run.states[k], i))
  {
    hide IsRun;
    TermsOnlyRise(run, j, k, i);
    PlainNode(run, j, i);
    PlainNode(run, k, i);
    var a, b := LogOf(run.states[j], i), LogOf(run.states[k], i);
    forall n | 0 <= n < |a| && n < |b| && a[n].term == b[n].term ensures a[..n + 1] == b[..n + 1] {
      LogsMatch(run, j, k, i, i, n + 1);
    }
  }

  lemma PlainNode(run: Run, k: nat, i: NodeId)
    requires IsRun(run) && k < |run.states| && i in run.states[k].machines
    ensures Plain(PersistentOf(run.states[k], i).log)
  {
    hide Possible, Do, H.Extends;
    var hs := RunWitness(false, run);
    PlainMachine(run.states[k], hs[k], i);
  }

  lemma PlainMachine(c: ClusterState, h: H.History, i: NodeId)
    requires Tracks(false, c, h) && i in c.machines
    ensures Plain(PersistentOf(c, i).log)
  {
    hide Tracks;
    ServerFacts(false, c, h, i);
  }

  ghost predicate WasIn(run: Run, i: NodeId, n: nat, p: Persistent) {
    n < |run.states| && i in run.states[n].machines && PersistentOf(run.states[n], i) == p
  }

  /** What the server would persist next by some step it can take at point `n` of the run. */
  ghost predicate Upcoming(run: Run, i: NodeId, n: nat, p: Persistent) {
    n < |run.states| && exists step :: Possible(run.states[n], i, step) && Persists(run.states[n], i, step, p)
  }

  ghost predicate Persists(c: ClusterState, i: NodeId, step: Step, p: Persistent)
    requires Possible(c, i, step)
  {
    i in Do(c, i, step).machines && PersistentOf(Do(c, i, step), i) == p
  }

  /** Operation `n` hands over a state of the node at its point of the run; or one that the
      node was about to move to, when a crash lost it and the node never did. */
  ghost predicate FedAt(run: Run, i: NodeId, point: nat, op: StoreRun.StoreOp, after: Persistent) {
    match op
    case SaveOp(current, _) => WasIn(run, i, point, current)
    case CrashOp(current, _, _, _) =>
      WasIn(run, i, point, current) || (after != current && Upcoming(run, i, point, current))
    case RestartOp(_, _) => true
  }

  /** The store is fed by its node in the order of the run, at the points given. */
  ghost predicate FedBy(run: Run, i: NodeId, points: seq<nat>, sts: seq<StoreRun.RaftStore>, ops: seq<StoreRun.StoreOp>)
  {
    && |points| == |ops| == |sts| - 1
    && (forall m, n :: 0 <= m <= n < |points| ==> points[m] <= points[n] < |run.states|)
    && (forall n :: 0 <= n < |ops| ==> FedAt(run, i, points[n], ops[n], sts[n + 1].durable))
  }

  /** A state the node was in and one it may move to later can be saved one after the other. */
  lemma UpcomingFollows(run: Run, i: NodeId, j: nat, k: nat, p: Persistent)
    requires IsRun(run) && j <= k < |run.states| && i in run.states[j].machines && Upcoming(run, i, k, p)
    ensures Store.Advances(PersistentOf(run.states[j], i), p)
  {
    hide Possible, Do, Store.Advances;
    var step :| Possible(run.states[k], i, step) && Persists(run.states[k], i, step, p);
    var longer := Run(run.states[..k + 1] + [Do(run.states[k], i, step)], run.moves[..k] + [Move(i, step)]);
    IsLonger(run, k, i, step, longer);
    RunStatesFollow(longer, i, j, k + 1);
  }

  lemma IsLonger(run: Run, k: nat, i: NodeId, step: Step, longer: Run)
    requires IsRun(run) && k < |run.states| && Possible(run.states[k], i, step)
    requires longer == Run(run.states[..k + 1] + [Do(run.states[k], i, step)], run.moves[..k] + [Move(i, step)])
    ensures IsRun(longer)
  {
    hide Possible, Do;
    forall m | 0 <= m < |longer.moves|
      ensures Possible(longer.states[m], longer.moves[m].who, longer.moves[m].step)
      ensures longer.states[m + 1] == Do(longer.states[m], longer.moves[m].who, longer.moves[m].step)
    {
      if m < k {
        assert longer.moves[m] == run.moves[m] && longer.states[m + 1] == run.states[m + 1];
      }
    }
  }

  lemma HandedFollows(run: Run, i: NodeId, n: nat, point: nat, op: StoreRun.StoreOp, after: Persistent)
    requires IsRun(run) && n <= point < |run.states| && i in run.states[n].machines && !op.RestartOp?
    requires FedAt(run, i, point, op, after)
    ensures Store.Advances(PersistentOf(run.states[n], i), op.current)
  {
    hide IsRun, Upcoming, Store.Advances;
    if WasIn(run, i, point, op.current) {
      RunStatesFollow(run, i, n, point);
    } else {
      UpcomingFollows(run, i, n, point, op.current);
    }
  }

  /** A state the store was last handed is one the node was in, no earlier than any whose save
      returned. */
  lemma SavedWasIn(run: Run, i: NodeId, points: seq<nat>, crc: WalFormat.Checksum, codec: Store.Codec,
                   sts: seq<StoreRun.RaftStore>, ops: seq<StoreRun.StoreOp>, k: nat, m: int, p: Persistent)
    returns (n: nat)
    requires IsRun(run) && i in run.states[0].machines && FedBy(run, i, points, sts, ops) && k <= |ops| < |sts|
    requires StoreRun.LastSaved(crc, codec, PersistentOf(run.states[0], i), sts, ops, k, m, p)
    ensures WasIn(run, i, n, p) && (n == 0 || (k > 0 && n <= points[k - 1] && n in points))
    ensures forall j :: 0 <= j < k && StoreRun.Acknowledged(crc, codec, sts[j], ops[j]) ==> points[j] <= n
  {
    hide Possible, Do, Upcoming, StoreRun.Save;
    n := 0;
    if m >= 0 {
      n := points[m];
      assert FedAt(run, i, points[m], ops[m], sts[m + 1].durable);
    }
  }

  /** Whatever failed and wherever it crashed, the store of a node holds a state that the node
      was in at some point of the run, no earlier than any whose save returned; and whatever
      it is handed next can be saved. */
  lemma {:induction false} NodeStoreLife(run: Run, i: NodeId, points: seq<nat>, crc: WalFormat.Checksum,
                                         codec: Store.Codec, sts: seq<StoreRun.RaftStore>,
                                         ops: seq<StoreRun.StoreOp>, k: nat) returns (n: nat)
    requires IsRun(run) && i in run.states[0].machines && Store.Faithful(codec)
    requires StoreRun.IsStoreLife(crc, codec, PersistentOf(run.states[0], i), sts, ops) && k < |sts|
    requires FedBy(run, i, points, sts, ops)
    ensures StoreRun.Follows(sts, ops, k)
    ensures WasIn(run, i, n, sts[k].durable) && (n == 0 || (k > 0 && n <= points[k - 1] && n in points))
    ensures forall j :: 0 <= j < k && StoreRun.Acknowledged(crc, codec, sts[j], ops[j]) ==> points[j] <= n
  {
    hide Possible, Do, Upcoming, Store.Advances, StoreRun.Acknowledged, StoreRun.IsStoreLife, StoreRun.LastSaved;
    hide StoreRun.AllBacked, StoreRun.StoreOk, StoreRun.Settled;
    if k > 0 {
      var before := NodeStoreLife(run, i, points, crc, codec, sts, ops, k - 1);
      var op, point := ops[k - 1], points[k - 1];
      assert FedAt(run, i, point, op, sts[k - 1 + 1].durable);
      if !op.RestartOp? {
        HandedFollows(run, i, before, point, op, sts[k].durable);
      }
    }
    var _, m := StoreRun.StoreLife(crc, codec, PersistentOf(run.states[0], i), sts, ops, k);
    n := SavedWasIn(run, i, points, crc, codec, sts, ops, k, m, sts[k].durable);
  }

  /** The node stops at a save that fails. Then a crash at any byte of any further save leaves
      a store that reopens: to the state being saved, for sure if that save had returned, or to
      a state the node was in, no earlier than any whose save returned. */
  lemma NodeReopens(run: Run, i: NodeId, points: seq<nat>, crc: WalFormat.Checksum, codec: Store.Codec,
                    sts: seq<StoreRun.RaftStore>, ops: seq<StoreRun.StoreOp>, k: nat, at: nat, current: Persistent,
                    f: StoreRun.SaveFaults, image: seq<Bytes>, stable: nat) returns (n: nat)
    requires IsRun(run) && i in run.states[0].machines && Store.Faithful(codec)
    requires StoreRun.IsStoreLife(crc, codec, PersistentOf(run.states[0], i), sts, ops) && k < |sts|
    requires FedBy(run, i, points, sts, ops) && StoreRun.StopsOnFailure(crc, codec, sts, ops)
    requires at < |run.states| && forall j :: 0 <= j < |points| ==> points[j] <= at
    requires WasIn(run, i, at, current) || Upcoming(run, i, at, current)
    requires WalLog.Wellformed(sts[k].wal) && StoreRun.CrashDuring(crc, codec, sts[k], current, f, image, stable)
    ensures var initial := PersistentOf(run.states[0], i);
            var again := StoreRun.OpenStore(crc, codec, image, sts[k].wal.options, stable, initial);
            && again.Done? && (again.value.durable == current || WasIn(run, i, n, again.value.durable))
            && (StoreRun.CrashAfter(crc, codec, sts[k], current, f, image, stable) ==> again.value.durable == current)
    ensures forall j :: 0 <= j < k && StoreRun.Acknowledged(crc, codec, sts[j], ops[j]) ==> points[j] <= n
  {
    hide IsRun, Upcoming, Store.Advances, StoreRun.Acknowledged, StoreRun.Settled, StoreRun.LastSaved;
    hide StoreRun.StopsOnFailure, StoreRun.CrashDuring, StoreRun.OpenStore, StoreRun.CrashAfter, StoreRun.Follows;
    var initial := PersistentOf(run.states[0], i);
    n := NodeStoreLife(run, i, points, crc, codec, sts, ops, k);
    if WasIn(run, i, at, current) {
      RunStatesFollow(run, i, n, at);
    } else {
      UpcomingFollows(run, i, n, at, current);
    }
    var m := StoreRun.LifeReopens(crc, codec, initial, sts, ops, k, current, f, image, stable);
    var again := StoreRun.OpenStore(crc, codec, image, sts[k].wal.options, stable, initial).value;
    if again.durable != current {
      n := SavedWasIn(run, i, points, crc, codec, sts, ops, k, m, again.durable);
    }
  }

  // ----- What an unsettled store means for the others -----

  /** The store reads back a state that is not on stable storage. When the request that led to
      it is delivered again, nothing changes and nothing is saved, and the node acknowledges
      its whole log; a power failure then takes the state away. */
  lemma AcknowledgedThenLost(crc: WalFormat.Checksum, codec: Store.Codec, initial: Persistent, current: Persistent,
                             options: WalLog.Options, id: NodeId, opts: Options, m: Message, recent: bool)
    returns (sts: seq<StoreRun.RaftStore>, ops: seq<StoreRun.StoreOp>)
    requires Store.Faithful(codec) && Store.Advances(initial, current)
    requires WalLog.Sized(options) && !options.syncOnAppend
    requires var payload := StoreRun.RecordFor(codec, initial, current).payload;
             |payload| <= WalFormat.U32_MAX && WalFormat.HEADER_LEN + |payload| <= options.segmentSize
             && WalFormat.HEADER_LEN + |payload| <= options.maxSize
    requires Redelivered(current, m)
    ensures StoreRun.IsStoreLife(crc, codec, initial, sts, ops) && |sts| == 3
    ensures StoreRun.StopsOnFailure(crc, codec, sts, ops)
    ensures sts[1].durable == current && !StoreRun.Settled(sts[1].wal) && sts[2].durable == initial
    ensures var (node, effects) := StepEvent(Restore(id, opts, sts[1].durable), Receive(m, recent));
            && !effects.persist && node.core.p == current
            && effects.messages == [Message(id, m.from, m.term, AppendResponse(true, |current.log.entries|))]
  {
    hide Store.Advances, StoreRun.StoreNext, StoreRun.OpenStore, StoreRun.StopsOnFailure, StepEvent;
    sts, ops := StoreRun.ReadBackLost(crc, codec, initial, current, options);
    RedeliveryAcknowledged(id, opts, current, m, recent);
  }

  /** A request of the current term whose entries the log already has. */
  ghost predicate Redelivered(p: Persistent, m: Message) {
    && Plain(p.log) && m.body.AppendRequest? && m.term == p.term
    && m.body.prevLogIndex <= |p.log.entries| && Merging.Follows(m.body.entries, m.body.prevLogIndex)
    && FollowerRole.PrevMatches(p.log, m.body) && FollowerRole.Merge(p.log, m.body.entries) == p.log
  }

  lemma RedeliveryAcknowledged(id: NodeId, opts: Options, p: Persistent, m: Message, recent: bool)
    requires Redelivered(p, m)
    ensures var (node, effects) := StepEvent(Restore(id, opts, p), Receive(m, recent));
            && !effects.persist && node.core.p == p
            && effects.messages == [Message(id, m.from, m.term, AppendResponse(true, |p.log.entries|))]
  {
    PersistsIffChanged(p.log, m.body.prevLogIndex, m.body.entries);
    PlainQueries(p.log);
    hide FollowerRole.Merge, FollowerRole.MergePersists, FollowerRole.PrevMatches, Plain;
  }
}
