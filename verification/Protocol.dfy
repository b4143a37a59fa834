/** The protocol behind the node automaton: what a server's persistent state, commit index
    and role may do in one small step, with no timing and no message plumbing.

    One event of the real node is a short chain of these steps (module Refinement), so
    what every step keeps holds in every state of a real cluster. */
module Protocol {
  import opened Types
  import opened RaftLog
  import opened Event

  datatype Round = Round(id: nat, readIndex: LogIndex, acks: set<NodeId>)

  datatype Phase =
    | Idle
    | Campaigning(votes: set<NodeId>)
    | Leading(matched: map<NodeId, LogIndex>, nextRead: nat, pending: Option<Round>, confirmed: LogIndex)

  /** The log of each term's leader. */
  type LeaderLogs = map<Term, seq<Entry>>

  datatype Server = Server(
    term: Term, vote: Option<NodeId>, log: seq<Entry>, commit: LogIndex, phase: Phase)

  /** `net` holds every message ever sent: any of them may be delivered, any number of
      times, in any order, or never. */
  datatype State = State(voters: set<NodeId>, servers: map<NodeId, Server>, net: set<Message>)

  predicate Majority(voters: set<NodeId>, yes: set<NodeId>) {
    |voters * yes| > |voters| / 2
  }

  lemma MajoritiesShare(voters: set<NodeId>, a: set<NodeId>, b: set<NodeId>) returns (v: NodeId)
    requires Majority(voters, a) && Majority(voters, b)
    ensures v in a && v in b && v in voters
  {
    Pigeonhole(voters * a, voters * b, voters);
    v :| v in (voters * a) * (voters * b);
  }

  // ----- Logs as plain sequences -----

  function LastTerm(log: seq<Entry>): Term {
    if log == [] then 0 else log[|log| - 1].term
  }

  function TermAt(log: seq<Entry>, index: LogIndex): Term {
    if 1 <= index <= |log| then log[index - 1].term else 0
  }

  predicate UpToDate(candidate: seq<Entry>, voter: seq<Entry>) {
    || LastTerm(candidate) > LastTerm(voter)
    || (LastTerm(candidate) == LastTerm(voter) && |candidate| >= |voter|)
  }

  /** How many of the incoming entries, starting at `k`, the log already holds by term. */
  function Agreeing(log: seq<Entry>, prev: nat, entries: seq<Entry>, k: nat): (c: nat)
    requires k <= |entries|
    ensures k <= c <= |entries|
    decreases |entries| - k
  {
    if k == |entries| || prev + k >= |log| || log[prev + k].term != entries[k].term then k
    else Agreeing(log, prev, entries, k + 1)
  }

  /** The log after accepting `entries` placed just past `prev`: kept whole when it agrees
      with all of them, otherwise cut at the first disagreement and extended. */
  function MergeAt(log: seq<Entry>, prev: nat, entries: seq<Entry>): seq<Entry> {
    var c := Agreeing(log, prev, entries, 0);
    if c == |entries| || prev + c > |log| then log else log[..prev + c] + entries[c..]
  }

  // ----- Steps -----

  datatype Action =
    | Quiet(out: set<Message>)
    | Rest(crash: bool)
    | Raise(term: Term)
    | Campaign(peers: set<NodeId>)
    | Grant(m: Message)
    | CountVote(m: Message)
    | Win(matched: map<NodeId, LogIndex>)
    | Propose(command: Bytes)
    | Send(out: set<Message>)
    | Accept(m: Message)
    | Ack(m: Message)
    | Commit(index: LogIndex)
    | StartRound
    | Ask(out: set<Message>)
    | ReplyRead(m: Message)
    | AckRead(m: Message)
    | Confirm

  /** Messages that promise nothing. */
  predicate Harmless(m: Message) {
    match m.body
    case PreVoteRequest(_, _, _) => true
    case PreVoteResponse(_, _) => true
    case VoteResponse(granted) => !granted
    case AppendResponse(success, _) => !success
    case TimeoutNow => true
    case _ => false
  }

  /** An append request that describes a stretch of `log` (or carries nothing). */
  predicate Describes(m: Message, log: seq<Entry>) {
    m.body.AppendRequest? &&
    var b := m.body;
    && b.prevLogTerm == TermAt(log, b.prevLogIndex)
    && (b.entries != [] ==>
          && b.prevLogIndex + |b.entries| <= |log|
          && b.entries == log[b.prevLogIndex..b.prevLogIndex + |b.entries|])
  }

  predicate Replicates(m: Message, i: NodeId, sv: Server) {
    && m.from == i && m.term == sv.term && Describes(m, sv.log)
    && m.body.leaderCommit == sv.commit
  }

  function HoldersOf(matched: map<NodeId, LogIndex>, index: LogIndex): set<NodeId> {
    set id | id in matched && matched[id] >= index
  }

  predicate LogHasTerm(log: seq<Entry>, upto: nat, term: Term) {
    exists k :: 0 <= k < upto && k < |log| && log[k].term == term
  }

  /** The action suits the role and the message it names. */
  predicate Fits(sv: Server, a: Action) {
    match a
    case Grant(m) => m.body.VoteRequest? && sv.phase.Idle?
    case CountVote(m) => m.body == VoteResponse(true) && sv.phase.Campaigning?
    case Win(_) => sv.phase.Campaigning?
    case Propose(_) => sv.phase.Leading?
    case Send(_) => sv.phase.Leading?
    case Accept(m) => m.body.AppendRequest? && sv.phase.Idle?
    case Ack(m) => m.body.AppendResponse? && m.body.success && sv.phase.Leading?
    case Commit(_) => sv.phase.Leading?
    case StartRound => sv.phase.Leading? && sv.phase.pending.None?
    case Ask(_) => sv.phase.Leading? && sv.phase.pending.Some?
    case ReplyRead(m) => m.body.ReadIndexRequest?
    case AckRead(m) => m.body.ReadIndexResponse? && sv.phase.Leading? && sv.phase.pending.Some?
    case Confirm => sv.phase.Leading? && sv.phase.pending.Some?
    case _ => true
  }

  /** When server `i` may take the step, given what has been sent so far. */
  predicate Can(voters: set<NodeId>, net: set<Message>, i: NodeId, sv: Server, a: Action) {
    Fits(sv, a) &&
    match a
    case Quiet(out) => forall m :: m in out ==> Harmless(m)
    case Rest(_) => true
    case Raise(term) => term > sv.term
    case Campaign(_) => true
    case Grant(m) =>
      && m in net && m.term == sv.term
      && (sv.vote == None || sv.vote == Some(m.from))
      && (|| m.body.lastLogTerm > LastTerm(sv.log)
          || (m.body.lastLogTerm == LastTerm(sv.log) && m.body.lastLogIndex >= |sv.log|))
    case CountVote(m) => m in net && m.term == sv.term && m.to == i
    case Win(matched) =>
      && Majority(voters, sv.phase.votes)
      && (forall v :: v in matched ==> matched[v] == if v == i then |sv.log| else 0)
    case Propose(_) => true
    case Send(out) => forall m :: m in out ==> Replicates(m, i, sv)
    case Accept(m) =>
      && m in net && m.term == sv.term
      && (m.body.prevLogIndex == 0 || TermAt(sv.log, m.body.prevLogIndex) == m.body.prevLogTerm)
    case Ack(m) => m in net && m.term == sv.term && m.to == i
    case Commit(index) =>
      && TermAt(sv.log, index) == sv.term && sv.commit < index <= |sv.log|
      && Majority(voters, HoldersOf(sv.phase.matched, index))
    case StartRound => LogHasTerm(sv.log, sv.commit, sv.term)
    case Ask(out) =>
      forall m :: m in out ==>
        && m.from == i && m.term == sv.term
        && m.body == ReadIndexRequest(sv.phase.pending.value.id, sv.phase.pending.value.readIndex)
    case ReplyRead(m) => m in net && m.term <= sv.term
    case AckRead(m) =>
      && m in net && m.term == sv.term && m.to == i
      && m.body == ReadIndexResponse(sv.phase.pending.value.id, sv.phase.pending.value.readIndex)
    case Confirm => Majority(voters, sv.phase.pending.value.acks)
  }

  function AcceptedCommit(sv: Server, log: seq<Entry>, leaderCommit: LogIndex): LogIndex {
    if leaderCommit > sv.commit then Min(leaderCommit, |log|) else sv.commit
  }

  function VoteRequests(i: NodeId, peers: set<NodeId>, term: Term, lastIndex: LogIndex, lastTerm: Term): set<Message> {
    set p | p in peers :: Message(i, p, term, VoteRequest(lastIndex, lastTerm))
  }

  /** The server after the step, and what it sent. */
  function Effect(i: NodeId, sv: Server, a: Action): (Server, set<Message>)
    requires Fits(sv, a)
  {
    match a
    case Quiet(out) => (sv, out)
    case Rest(crash) => (sv.(phase := Idle, commit := if crash then 0 else sv.commit), {})
    case Raise(term) => (sv.(term := term, vote := None, phase := Idle), {})
    case Campaign(peers) =>
      (sv.(term := sv.term + 1, vote := Some(i), phase := Campaigning({i})),
       VoteRequests(i, peers, sv.term + 1, |sv.log|, LastTerm(sv.log)))
    case Grant(m) => (sv.(vote := Some(m.from)), {Message(i, m.from, sv.term, VoteResponse(true))})
    case CountVote(m) => (sv.(phase := Campaigning(sv.phase.votes + {m.from})), {})
    case Win(matched) => (sv.(phase := Leading(matched, 1, None, 0)), {})
    case Propose(command) =>
      var log := sv.log + [Entry(sv.term, |sv.log| + 1, Command(command))];
      (sv.(log := log, phase := sv.phase.(matched := sv.phase.matched[i := |log|])), {})
    case Send(out) => (sv, out)
    case Accept(m) =>
      var log := MergeAt(sv.log, m.body.prevLogIndex, m.body.entries);
      (sv.(log := log, commit := AcceptedCommit(sv, log, m.body.leaderCommit)),
       {Message(i, m.from, sv.term, AppendResponse(true, |log|))})
    case Ack(m) => (sv.(phase := sv.phase.(matched := sv.phase.matched[m.from := m.body.ackLastIndex])), {})
    case Commit(index) => (sv.(commit := index), {})
    case StartRound =>
      var round := Round(sv.phase.nextRead, sv.commit, {i});
      (sv.(phase := sv.phase.(nextRead := sv.phase.nextRead + 1, pending := Some(round))), {})
    case Ask(out) => (sv, out)
    case ReplyRead(m) =>
      (sv, {Message(i, m.from, sv.term, ReadIndexResponse(m.body.readId, m.body.readIndex))})
    case AckRead(m) =>
      var round := sv.phase.pending.value;
      (sv.(phase := sv.phase.(pending := Some(round.(acks := round.acks + {m.from})))), {})
    case Confirm =>
      var confirmed := Max(sv.phase.confirmed, sv.phase.pending.value.readIndex);
      (sv.(phase := sv.phase.(pending := None, confirmed := confirmed)), {})
  }

  predicate Enabled(s: State, i: NodeId, a: Action) {
    i in s.servers && Can(s.voters, s.net, i, s.servers[i], a)
  }

  function Apply(s: State, i: NodeId, a: Action): State
    requires Enabled(s, i, a)
  {
    var (sv, out) := Effect(i, s.servers[i], a);
    State(s.voters, s.servers[i := sv], s.net + out)
  }

  predicate Initial(s: State) {
    && s.net == {}
    && s.servers.Keys == s.voters
    && forall i :: i in s.servers ==> s.servers[i] == Server(0, None, [], 0, Idle)
  }

  /** A server that begins to lead, appends or starts a round in a term goes on leading it. */
  predicate Steady(sv: Server, a: Action, sv': Server) {
    a.Win? || a.Propose? || a.StartRound? ==> StillLeads(sv.term, sv')
  }

  predicate StillLeads(t: Term, sv: Server) {
    sv.phase.Leading? && sv.term == t
  }

  // ----- Merging -----

  /** What the merge keeps and what it adds, for any entries placed inside or at the end of the log. */
  lemma MergeShape(log: seq<Entry>, prev: nat, entries: seq<Entry>)
    requires prev <= |log|
    ensures var c := Agreeing(log, prev, entries, 0);
            && (forall k :: 0 <= k < c ==> prev + k < |log| && log[prev + k].term == entries[k].term)
            && prev + c <= |log|
            && (c < |entries| && prev + c < |log| ==> log[prev + c].term != entries[c].term)
  {
    AgreeingShape(log, prev, entries, 0);
  }

  lemma {:induction false} AgreeingShape(log: seq<Entry>, prev: nat, entries: seq<Entry>, k: nat)
    requires k <= |entries| && prev + k <= |log|
    requires forall j :: 0 <= j < k ==> log[prev + j].term == entries[j].term
    ensures var c := Agreeing(log, prev, entries, k);
            && prev + c <= |log|
            && (forall j :: 0 <= j < c ==> prev + j < |log| && log[prev + j].term == entries[j].term)
            && (c < |entries| && prev + c < |log| ==> log[prev + c].term != entries[c].term)
    decreases |entries| - k
  {
    if k == |entries| || prev + k >= |log| || log[prev + k].term != entries[k].term {
    } else {
      AgreeingShape(log, prev, entries, k + 1);
    }
  }
}
