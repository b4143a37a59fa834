/** Events, messages and effects of the automaton (consensus/basisdb-raft/src/raft/event.rs).

    Logical time is an input here: a tick says whether the role's deadline has passed, and
    a delivery says whether the receiver heard from a leader within the minimum election
    timeout. Every schedule of the source's tick counters is one choice of these inputs. */
module Event {
  import opened Types
  import opened Membership
  import opened RaftLog

  datatype MessageBody =
    | PreVoteRequest(nextTerm: Term, preLastIndex: LogIndex, preLastTerm: Term)
    | PreVoteResponse(responderTerm: Term, preGranted: bool)
    | VoteRequest(lastLogIndex: LogIndex, lastLogTerm: Term)
    | VoteResponse(granted: bool)
    | AppendRequest(prevLogIndex: LogIndex, prevLogTerm: Term, entries: seq<Entry>, leaderCommit: LogIndex)
    | AppendResponse(success: bool, ackLastIndex: LogIndex)
    | ReadIndexRequest(readId: nat, readIndex: LogIndex)
    | ReadIndexResponse(ackId: nat, ackReadIndex: LogIndex)
    | TimeoutNow

  datatype Message = Message(from: NodeId, to: NodeId, term: Term, body: MessageBody)

  datatype SendSnapshot = SendSnapshot(
    to: NodeId, lastIncludedIndex: LogIndex, lastIncludedTerm: Term, configuration: Configuration)

  datatype Effects = Effects(persist: bool, messages: seq<Message>, sendSnapshots: seq<SendSnapshot>)
  {
    function Merge(other: Effects): Effects {
      Effects(persist || other.persist, messages + other.messages, sendSnapshots + other.sendSnapshots)
    }

    function WithPersist(): Effects {
      this.(persist := true)
    }

    function WithMessage(m: Message): Effects {
      this.(messages := messages + [m])
    }
  }

  const NO_EFFECTS := Effects(false, [], [])

  datatype Event =
    | Tick(expired: bool)
    | Receive(message: Message, recent: bool)
    | DiskWriteComplete(index: LogIndex)

  datatype Transition =
    | Stay
    | ToFollower(leader: Option<NodeId>)
    | ToFollowerAfterContact(leader: Option<NodeId>)
    | ToPreCandidate
    | ToCandidate
    | ToLeader
}
