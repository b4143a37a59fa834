/** Leader role (consensus/basisdb-raft/src/raft/leader.rs). */
module LeaderRole {
  import opened Types
  import opened Membership
  import opened RaftLog
  import opened Event
  import opened RaftCore

  // ----- Replication -----

  function PrevTerm(core: Core, prev: LogIndex): Term {
    if 0 < prev <= core.p.log.snapshotIndex then core.p.log.snapshotTerm else core.p.log.TermAt(prev)
  }

  /** The entries the next append request to a peer carries. */
  function Batch(core: Core, next: LogIndex): seq<Entry> {
    core.p.log.Slice(next, Min(next + core.opts.maxEntriesPerMsg, core.p.log.LastIndex() + 1))
  }

  /** A request carries one entry more than the configured number, if the log has it: it keeps
      to that number exactly if no more are left to send. */
  lemma BatchSize(core: Core, next: LogIndex)
    requires core.p.log.Contiguous() && core.p.log.snapshotIndex < next <= core.p.log.LastIndex()
    ensures var left := core.p.log.LastIndex() + 1 - next;
            && |Batch(core, next)| == Min(core.opts.maxEntriesPerMsg + 1, left)
            && (|Batch(core, next)| <= core.opts.maxEntriesPerMsg <==> left <= core.opts.maxEntriesPerMsg)
            && forall k :: 0 <= k < |Batch(core, next)| ==> Batch(core, next)[k].index == next + k
  {
  }

  function AppendFor(core: Core, next: LogIndex, to: NodeId): Message {
    var prev := if next == 0 then 0 else next - 1;
    core.Reply(to, AppendRequest(prev, PrevTerm(core, prev), Batch(core, next), core.commitIndex))
  }

  function SendAppendTo(core: Core, state: LeaderState, to: NodeId): (LeaderState, Effects) {
    var next := state.NextOf(to);
    var at := core.p.log.snapshotIndex;
    if next <= at then
      (state, Effects(false, [], [SendSnapshot(to, at, core.p.log.snapshotTerm, core.ConfigAt(at))]))
    else
      var batch := Batch(core, next);
      var sentUpTo := if batch == [] then next else batch[|batch| - 1].index + 1;
      var state' :=
        if core.opts.pipelining && sentUpTo > next then state.(nextIndex := state.nextIndex[to := sentUpTo])
        else state;
      (state', NO_EFFECTS.WithMessage(AppendFor(core, next, to)))
  }

  /** Sends to the first `k` of the peers, in order. */
  function SendToFirst(core: Core, state: LeaderState, peers: seq<NodeId>, k: nat): (LeaderState, Effects)
    requires k <= |peers|
  {
    if k == 0 then (state, NO_EFFECTS)
    else
      var (state', effects) := SendToFirst(core, state, peers, k - 1);
      var (state'', more) := SendAppendTo(core, state', peers[k - 1]);
      (state'', effects.Merge(more))
  }

  function BroadcastAppend(core: Core, state: LeaderState): (LeaderState, Effects) {
    var peers := Without(core.EffectiveConfig().AllNodes(), core.id);
    SendToFirst(core, state, peers, |peers|)
  }

  /** The same index for every server. */
  function Everyone(ids: seq<NodeId>, index: LogIndex): map<NodeId, LogIndex> {
    var all := set id | id in ids;
    map id | id in all :: index
  }

  /** A new leader expects every peer to need what follows its own log. */
  function Start(core: Core): LeaderState {
    var last, ids := core.p.log.LastIndex(), core.EffectiveConfig().AllNodes();
    var matched := Everyone(ids, 0);
    LeaderState(Everyone(ids, last + 1), if core.opts.parallelDiskWrite then matched else matched[core.id := last], 1,
                None, 0)
  }

  function New(core: Core): (LeaderState, Effects) {
    BroadcastAppend(core, Start(core))
  }

  // ----- Commit -----

  function Matched(core: Core, state: LeaderState, index: LogIndex): set<NodeId> {
    set id | id in core.EffectiveConfig().Voters() && state.MatchOf(id) >= index
  }

  /** Section 3.6.2: an entry of the current term that a quorum is believed to hold. */
  predicate Committable(core: Core, state: LeaderState, index: LogIndex) {
    && core.p.log.TermAt(index) == core.Term()
    && core.EffectiveConfig().HasQuorum(Matched(core, state, index))
  }

  /** The highest committable index up to `from`, or the old commit index. */
  function HighestCommittable(core: Core, state: LeaderState, from: LogIndex): LogIndex {
    if from <= core.commitIndex then core.commitIndex
    else if Committable(core, state, from) then from
    else HighestCommittable(core, state, from - 1)
  }

  function AdvanceCommit(core: Core, state: LeaderState): Core {
    core.(commitIndex := HighestCommittable(core, state, core.p.log.LastIndex()))
  }

  /** `m` with the default for the ids it does not know. */
  function Filled(ids: seq<NodeId>, m: map<NodeId, LogIndex>, default: LogIndex): map<NodeId, LogIndex> {
    Everyone(ids, default) + m
  }

  /** Progress entries for servers that have none yet. */
  function ReinitProgress(core: Core, state: LeaderState): LeaderState {
    var last, ids := core.p.log.LastIndex(), core.EffectiveConfig().AllNodes();
    var matched := Filled(ids, state.matchIndex, 0);
    state.(nextIndex := Filled(ids, state.nextIndex, last + 1),
           matchIndex := if core.opts.parallelDiskWrite then matched else matched[core.id := last])
  }

  /** The first voter other than this server whose log is known to be complete. */
  function TransferTarget(core: Core, state: LeaderState, voters: seq<NodeId>): Option<NodeId> {
    if voters == [] then None
    else if voters[0] != core.id && state.MatchOf(voters[0]) >= core.p.log.LastIndex() then Some(voters[0])
    else TransferTarget(core, state, voters[1..])
  }

  function AutoTransfer(core: Core, state: LeaderState, config: Configuration): Effects {
    match TransferTarget(core, state, config.Voters())
    case Some(target) => NO_EFFECTS.WithMessage(core.Reply(target, TimeoutNow))
    case None => NO_EFFECTS
  }

  function WithTarget(core: Core, target: Configuration): Core {
    core.WithLog(core.p.log.Append(Entry(core.Term(), core.p.log.LastIndex() + 1, Config(target))))
  }

  function AppendTarget(core: Core, state: LeaderState, target: Configuration): (Core, LeaderState, Effects) {
    var core' := WithTarget(core, target);
    var (state', effects) := BroadcastAppend(core', ReinitProgress(core', state));
    (core', state', effects.WithPersist())
  }

  datatype ConfigCommit =
    | Continue(core: Core, state: LeaderState, effects: Effects)
    | StepDown(effects: Effects)
    | Done

  predicate IsJoint(entry: Entry) {
    entry.payload.Config? && entry.payload.config.Joint?
  }

  function Joints(entries: seq<Entry>): nat {
    if entries == [] then 0 else (if IsJoint(entries[0]) then 1 else 0) + Joints(entries[1..])
  }

  function Position(log: Log, index: LogIndex): nat {
    Min(|log.entries|, if index < log.snapshotIndex then 0 else index - log.snapshotIndex)
  }

  /** How many joint configurations lie past `index`: what bounds the commit loop. */
  function JointsPast(log: Log, index: LogIndex): nat {
    Joints(log.entries[Position(log, index)..])
  }

  lemma {:induction false} JointsAppend(entries: seq<Entry>, entry: Entry)
    ensures Joints(entries + [entry]) == Joints(entries) + if IsJoint(entry) then 1 else 0
  {
    if entries == [] {
      assert entries + [entry] == [entry];
    } else {
      assert (entries + [entry])[1..] == entries[1..] + [entry];
      JointsAppend(entries[1..], entry);
    }
  }

  lemma {:induction false} JointsShrink(entries: seq<Entry>, a: nat, b: nat)
    requires a <= b <= |entries|
    ensures Joints(entries[b..]) <= Joints(entries[a..])
    decreases b - a
  {
    if a < b {
      assert entries[a..][1..] == entries[a + 1..];
      JointsShrink(entries, a + 1, b);
    }
  }

  /** Moving the commit index over a joint configuration and appending its simple target
      leaves strictly fewer joint configurations uncommitted. */
  lemma CompletionShrinks(log: Log, commit: LogIndex, index: LogIndex, entry: Entry)
    requires 0 < index <= commit
    requires log.Get(index).Some? && IsJoint(log.Get(index).value)
    requires !IsJoint(entry)
    ensures JointsPast(log.Append(entry), commit) < JointsPast(log, index - 1)
  {
    var entries, entries' := log.entries, log.Append(entry).entries;
    var at, past := Position(log, index - 1), Position(log, commit);
    assert entries[at..][1..] == entries[at + 1..];
    JointsShrink(entries, at + 1, past);
    JointsAppend(entries[past..], entry);
    assert entries'[past..] == entries[past..] + [entry];
    JointsShrink(entries', past, Position(log.Append(entry), commit));
  }

  lemma JointsPastMonotone(log: Log, a: LogIndex, b: LogIndex)
    requires a <= b
    ensures JointsPast(log, b) <= JointsPast(log, a)
  {
    JointsShrink(log.entries, Position(log, a), Position(log, b));
  }

  lemma TargetShrinks(core: Core, state: LeaderState, index: LogIndex, target: Configuration)
    requires 0 < index <= core.commitIndex && target.Simple?
    requires core.p.log.Get(index).Some? && IsJoint(core.p.log.Get(index).value)
    ensures var core' := AppendTarget(core, state, target).0;
            core'.commitIndex == core.commitIndex
                && JointsPast(core'.p.log, core.commitIndex) < JointsPast(core.p.log, index - 1)
  {
    hide BroadcastAppend, JointsPast, ReinitProgress;
    CompletionShrinks(core.p.log, core.commitIndex, index,
                      Entry(core.Term(), core.p.log.LastIndex() + 1, Config(target)));
  }

  /** Scans the newly committed configuration entries from `index` on. */
  function ProcessCommitted(core: Core, state: LeaderState, index: LogIndex): (r: ConfigCommit)
    requires index > 0
    ensures r.Continue? ==>
              && r.core.commitIndex == core.commitIndex
              && JointsPast(r.core.p.log, core.commitIndex) < JointsPast(core.p.log, index - 1)
    decreases core.commitIndex + 1 - index
  {
    if index > core.commitIndex then Done
    else
      JointsPastMonotone(core.p.log, index - 1, index);
      match core.p.log.Get(index)
      case None => ProcessCommitted(core, state, index + 1)
      case Some(entry) =>
        if entry.payload.Command? then ProcessCommitted(core, state, index + 1)
        else if !entry.payload.config.IsVoter(core.id) then
          StepDown(AutoTransfer(core, state, entry.payload.config))
        else if entry.payload.config.Joint? then
          var target := entry.payload.config.TransitionTarget().value;
          TargetShrinks(core, state, index, target);
          var (core', state', effects) := AppendTarget(core, state, target);
          Continue(core', state', effects)
        else ProcessCommitted(core, state, index + 1)
  }

  datatype CommitResult = CommitResult(core: Core, state: LeaderState, effects: Effects, stepDown: bool)

  /** Advances the commit index, completing joint configurations on the way. Each round
      that goes on has completed one joint configuration, so the number of uncommitted
      ones bounds the rounds although every round also appends an entry. */
  function MaybeCommit(core: Core, state: LeaderState, effects: Effects := NO_EFFECTS): CommitResult
    decreases JointsPast(core.p.log, core.commitIndex)
  {
    var advanced := AdvanceCommit(core, state);
    if advanced.commitIndex == core.commitIndex then CommitResult(core, state, effects, false)
    else
      match ProcessCommitted(advanced, state, core.commitIndex + 1)
      case Continue(core', state', more) => MaybeCommit(core', state', effects.Merge(more))
      case StepDown(more) => CommitResult(advanced, state, effects.Merge(more), true)
      case Done => CommitResult(advanced, state, effects, false)
  }

  // ----- Requests and messages -----

  function AppendCommand(core: Core, command: Bytes): Core {
    core.WithLog(core.p.log.Append(Entry(core.Term(), core.p.log.LastIndex() + 1, Command(command))))
  }

  function Propose(core: Core, state: LeaderState, command: Bytes): CommitResult {
    var core' := AppendCommand(core, command);
    var state' :=
      if core.opts.parallelDiskWrite then state
      else state.(matchIndex := state.matchIndex[core.id := core'.p.log.LastIndex()]);
    var committed := MaybeCommit(core', state');
    var (state'', effects) := BroadcastAppend(committed.core, committed.state);
    committed.(state := state'', effects := effects.WithPersist().Merge(committed.effects))
  }

  function AfterCommit(r: CommitResult): StepResult {
    StepResult(r.core, Leader(r.state), if r.stepDown then ToFollower(None) else Stay, r.effects)
  }

  function HandleDiskWrite(core: Core, state: LeaderState, index: LogIndex): StepResult {
    if index > state.MatchOf(core.id) then
      AfterCommit(MaybeCommit(core, state.(matchIndex := state.matchIndex[core.id := index])))
    else StepResult(core, Leader(state), Stay, NO_EFFECTS)
  }

  function HandleAppendResponse(core: Core, state: LeaderState, from: NodeId, resp: MessageBody): StepResult
    requires resp.AppendResponse?
  {
    if !core.EffectiveConfig().IsMember(from) then StepResult(core, Leader(state), Stay, NO_EFFECTS)
    else if resp.success then
      var acked := state.(matchIndex := state.matchIndex[from := resp.ackLastIndex]);
      var state' :=
        if core.opts.pipelining then acked
        else acked.(nextIndex := acked.nextIndex[from := resp.ackLastIndex + 1]);
      AfterCommit(MaybeCommit(core, state'))
    else
      var hinted := resp.ackLastIndex + 1;
      var next := if core.opts.pipelining then Max(hinted, state.MatchOf(from) + 1) else hinted;
      var (state', effects) := SendAppendTo(core, state.(nextIndex := state.nextIndex[from := next]), from);
      StepResult(core, Leader(state'), Stay, effects)
  }

  // ----- Read index (section 6.4) -----

  /** Whether some committed entry carries the current term; the scan stops at an older term. */
  predicate CommittedInTerm(core: Core, index: LogIndex) {
    index > 0 &&
    (|| core.p.log.TermAt(index) == core.Term()
     || (core.p.log.TermAt(index) >= core.Term() && CommittedInTerm(core, index - 1)))
  }

  function ReadRequests(core: Core, pending: PendingRead): Effects {
    var peers := Without(pending.configuration.Voters(), core.id);
    Effects(false,
      seq(|peers|, k requires 0 <= k < |peers| =>
        core.Reply(peers[k], ReadIndexRequest(pending.id, pending.readIndex))), [])
  }

  datatype ReadError =
    | ReadInProgress(readIndex: LogIndex)
    | CurrentTermNotCommitted
    | ReadNotLeader(hint: Option<NodeId>)

  datatype ReadOutcome =
    | ReadStarted(state: LeaderState, readIndex: LogIndex, effects: Effects)
    | ReadRefused(error: ReadError)

  function RequestReadIndex(core: Core, state: LeaderState): ReadOutcome {
    if state.pendingRead.Some? then ReadRefused(ReadInProgress(state.pendingRead.value.readIndex))
    else if !CommittedInTerm(core, core.commitIndex) then ReadRefused(CurrentTermNotCommitted)
    else
      var pending := PendingRead(state.nextReadId, core.commitIndex, core.EffectiveConfig(), {core.id});
      var state' := state.(nextReadId := state.nextReadId + 1);
      if pending.configuration.HasQuorum(pending.acks) then
        ReadStarted(state'.(confirmedRead := Max(state.confirmedRead, pending.readIndex)), pending.readIndex,
                    NO_EFFECTS)
      else
        ReadStarted(state'.(pendingRead := Some(pending)), pending.readIndex, ReadRequests(core, pending))
  }

  function HandleReadResponse(state: LeaderState, from: NodeId, resp: MessageBody): LeaderState
    requires resp.ReadIndexResponse?
  {
    match state.pendingRead
    case None => state
    case Some(pending) =>
      if !pending.configuration.IsVoter(from) || pending.id != resp.ackId || pending.readIndex != resp.ackReadIndex
      then state
      else
        var pending' := pending.(acks := pending.acks + {from});
        if pending.configuration.HasQuorum(pending'.acks) then
          state.(confirmedRead := Max(state.confirmedRead, pending.readIndex), pendingRead := None)
        else state.(pendingRead := Some(pending'))
  }

  // ----- Steps -----

  function HandleTick(core: Core, state: LeaderState, expired: bool): StepResult {
    if !expired then StepResult(core, Leader(state), Stay, NO_EFFECTS)
    else
      var (state', effects) := BroadcastAppend(core, state);
      var asks := if state.pendingRead.Some? then ReadRequests(core, state.pendingRead.value) else NO_EFFECTS;
      StepResult(core, Leader(state'), Stay, effects.Merge(asks))
  }

  function HandleMessage(core: Core, state: LeaderState, m: Message): StepResult {
    if m.body.PreVoteRequest? then
      StepResult(core, Leader(state), Stay,
        NO_EFFECTS.WithMessage(core.Reply(m.from, PreVoteResponse(core.Term(), false))))
    else if m.term > core.Term() then
      StepResult(core.MaybeUpdateTerm(m.term), Leader(state),
        ToFollower(if m.body.AppendRequest? then Some(m.from) else None), NO_EFFECTS.WithPersist())
    else if m.term < core.Term() then
      StepResult(core, Leader(state), Stay, RejectStale(core, m))
    else
      match m.body
      case AppendResponse(_, _) => HandleAppendResponse(core, state, m.from, m.body)
      case ReadIndexResponse(_, _) =>
        StepResult(core, Leader(HandleReadResponse(state, m.from, m.body)), Stay, NO_EFFECTS)
      case VoteRequest(_, _) =>
        StepResult(core, Leader(state), Stay, NO_EFFECTS.WithMessage(core.Reply(m.from, VoteResponse(false))))
      case _ => StepResult(core, Leader(state), Stay, NO_EFFECTS)
  }

  function Step(core: Core, role: Role, event: Event): StepResult
    requires role.Leader?
  {
    match event
    case Tick(expired) => HandleTick(core, role.state, expired)
    case DiskWriteComplete(index) => HandleDiskWrite(core, role.state, index)
    case Receive(m, _) => HandleMessage(core, role.state, m)
  }
}
