/** Follower role (consensus/basisdb-raft/src/raft/follower.rs). */
module FollowerRole {
  import opened Types
  import opened RaftLog
  import opened Event
  import opened RaftCore

  /** One round of the append loop: truncate on conflict, then append if past the end. */
  function MergeEntry(log: Log, entry: Entry): Log {
    var existing := log.TermAt(entry.index);
    var cut :=
      if existing != 0 && existing != entry.term && entry.index > 0 then log.TruncateAfter(entry.index - 1)
      else log;
    if entry.index > cut.LastIndex() then cut.Append(entry) else cut
  }

  /** Whether that round appended, which is what asks for persistence. */
  predicate MergeAppends(log: Log, entry: Entry) {
    var existing := log.TermAt(entry.index);
    var cut :=
      if existing != 0 && existing != entry.term && entry.index > 0 then log.TruncateAfter(entry.index - 1)
      else log;
    entry.index > cut.LastIndex()
  }

  /** The whole loop over the entries of a request. */
  function Merge(log: Log, entries: seq<Entry>): Log {
    if entries == [] then log
    else MergeEntry(Merge(log, entries[..|entries| - 1]), entries[|entries| - 1])
  }

  predicate MergePersists(log: Log, entries: seq<Entry>) {
    entries != [] &&
    (|| MergePersists(log, entries[..|entries| - 1])
     || MergeAppends(Merge(log, entries[..|entries| - 1]), entries[|entries| - 1]))
  }

  /** The consistency check of section 3.5. */
  predicate PrevMatches(log: Log, req: MessageBody)
    requires req.AppendRequest?
  {
    req.prevLogIndex == 0 || log.TermAt(req.prevLogIndex) == req.prevLogTerm
  }

  function HandleAppend(core: Core, from: NodeId, req: MessageBody): StepResult
    requires req.AppendRequest?
  {
    var role := Follower(Some(from));
    if !PrevMatches(core.p.log, req) then
      StepResult(core, role, Stay,
        NO_EFFECTS.WithMessage(core.Reply(from, AppendResponse(false, core.p.log.LastIndex()))))
    else
      var merged := core.WithLog(Merge(core.p.log, req.entries));
      var last := merged.p.log.LastIndex();
      var done :=
        if req.leaderCommit > merged.commitIndex then merged.(commitIndex := Min(req.leaderCommit, last))
        else merged;
      StepResult(done, role, Stay,
        Effects(MergePersists(core.p.log, req.entries), [done.Reply(from, AppendResponse(true, last))], []))
  }

  function HandleVote(core: Core, role: Role, from: NodeId, req: MessageBody): StepResult
    requires req.VoteRequest?
  {
    var granted :=
      && core.EffectiveConfig().IsVoter(from)
      && core.CanVoteFor(from)
      && core.LogIsUpToDate(req.lastLogTerm, req.lastLogIndex);
    var core' := if granted then core.VoteFor(from) else core;
    StepResult(core', role, Stay, Effects(granted, [core'.Reply(from, VoteResponse(granted))], []))
  }

  function HandleReadIndex(core: Core, from: NodeId, req: MessageBody): StepResult
    requires req.ReadIndexRequest?
  {
    StepResult(core, Follower(Some(from)), Stay,
      NO_EFFECTS.WithMessage(core.Reply(from, ReadIndexResponse(req.readId, req.readIndex))))
  }

  function RejectStaleRequest(core: Core, m: Message): Effects {
    match m.body
    case ReadIndexRequest(id, readIndex) =>
      NO_EFFECTS.WithMessage(core.Reply(m.from, ReadIndexResponse(id, readIndex)))
    case _ => RejectStale(core, m)
  }

  function HandleCurrent(core: Core, role: Role, m: Message): StepResult {
    match m.body
    case VoteRequest(_, _) => HandleVote(core, role, m.from, m.body)
    case AppendRequest(_, _, _, _) => HandleAppend(core, m.from, m.body)
    case ReadIndexRequest(_, _) => HandleReadIndex(core, m.from, m.body)
    case TimeoutNow => StepResult(core, role, ToCandidate, NO_EFFECTS)
    case _ => StepResult(core, role, Stay, NO_EFFECTS)
  }

  function HandleMessage(core: Core, role: Role, m: Message, recent: bool): StepResult
    requires role.Follower?
  {
    if (m.body.VoteRequest? || m.body.PreVoteRequest?) && role.leader.Some? && recent then
      StepResult(core, role, Stay, DenyVote(core, m))
    else if m.body.PreVoteRequest? then
      StepResult(core, role, Stay, NO_EFFECTS.WithMessage(PreVoteReply(core, m)))
    else
      var core' := core.MaybeUpdateTerm(m.term);
      var role' :=
        if m.term > core.Term() && (m.body.AppendRequest? || m.body.ReadIndexRequest?) then Follower(Some(m.from))
        else role;
      if m.term < core'.Term() then
        StepResult(core', role', Stay, RejectStaleRequest(core', m))
      else
        var r := HandleCurrent(core', role', m);
        if m.term > core.Term() then r.(effects := r.effects.WithPersist()) else r
  }

  function Step(core: Core, role: Role, event: Event): StepResult
    requires role.Follower?
  {
    match event
    case Tick(expired) =>
      if !expired then StepResult(core, role, Stay, NO_EFFECTS)
      else StepResult(core, role, if core.opts.prevote then ToPreCandidate else ToCandidate, NO_EFFECTS)
    case DiskWriteComplete(_) => StepResult(core, role, Stay, NO_EFFECTS)
    case Receive(m, recent) => HandleMessage(core, role, m, recent)
  }
}
