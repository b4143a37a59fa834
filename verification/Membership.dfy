/** Cluster configurations and membership changes
    (consensus/basisdb-raft/src/raft/membership.rs). */
module Membership {
  import opened Types

  datatype Mode = SingleServer | JointConsensus

  datatype Configuration =
    | Simple(voters: set<NodeId>, learners: set<NodeId>)
    | Joint(outgoing: set<NodeId>, incoming: set<NodeId>, learners: set<NodeId>)
  {
    predicate IsVoter(id: NodeId) {
      match this
      case Simple(voters, _) => id in voters
      case Joint(outgoing, incoming, _) => id in outgoing || id in incoming
    }

    predicate IsMember(id: NodeId) {
      IsVoter(id) || id in learners
    }

    /** Voters in the order the source yields them: old first, then the new ones not in old. */
    function Voters(): seq<NodeId> {
      match this
      case Simple(voters, _) => Ascending(voters)
      case Joint(outgoing, incoming, _) => Ascending(outgoing) + Ascending(incoming - outgoing)
    }

    function VoterCount(): nat {
      match this
      case Simple(voters, _) => |voters|
      case Joint(outgoing, incoming, _) => |outgoing| + |incoming - outgoing|
    }

    /** Voters, then learners. A server that is both appears twice. */
    function AllNodes(): seq<NodeId> {
      Voters() + Ascending(learners)
    }

    /** `yes` is the set of servers that voted or acknowledged. */
    predicate HasQuorum(yes: set<NodeId>) {
      match this
      case Simple(voters, _) => |voters * yes| > |voters| / 2
      case Joint(outgoing, incoming, _) => |outgoing * yes| > |outgoing| / 2 && |incoming * yes| > |incoming| / 2
    }

    /** The configuration that completes a joint transition. */
    function TransitionTarget(): Option<Configuration> {
      match this
      case Simple(_, _) => None
      case Joint(_, incoming, learners) => Some(Simple(incoming, learners))
    }
  }

  function Without(ids: seq<NodeId>, me: NodeId): (r: seq<NodeId>)
    ensures forall x :: x in r <==> x in ids && x != me
  {
    if ids == [] then [] else
    (if ids[0] == me then [] else [ids[0]]) + Without(ids[1..], me)
  }

  datatype Members = Members(voters: set<NodeId>, learners: set<NodeId>)

  datatype Change =
    | AddVoter(id: NodeId)
    | RemoveVoter(id: NodeId)
    | AddLearner(id: NodeId)
    | RemoveLearner(id: NodeId)
    | SetMembers(members: Members)

  datatype ChangeError =
    | ChangeInProgress
    | AlreadyVoter(id: NodeId)
    | AlreadyLearner(id: NodeId)
    | Overlap(id: NodeId)
    | PromoteRequiresLearner(id: NodeId)
    | NotVoter(id: NodeId)
    | NotLearner(id: NodeId)
    | WouldBeEmpty
    | NoChange
    | NotSingleChange(added: nat, removed: nat)

  /** Builds a membership set from unordered lists; the first learner that is also
      a voter is reported. */
  method NewMembers(voters: seq<NodeId>, learners: seq<NodeId>) returns (m: Members, err: Option<ChangeError>)
    ensures err.None? <==> forall id :: id in learners ==> id !in voters
    ensures err.None? ==>
              && m.voters == (set id | id in voters)
              && m.learners == (set id | id in learners)
    ensures err.Some? ==>
              exists k :: && 0 <= k < |learners|
                          && err.value == Overlap(learners[k])
                          && learners[k] in voters
                          && forall j :: 0 <= j < k ==> learners[j] !in voters
  {
    var voterSet: set<NodeId> := {};
    for i := 0 to |voters|
      invariant voterSet == set id | id in voters[..i]
    {
      voterSet := voterSet + {voters[i]};
      assert voters[..i + 1] == voters[..i] + [voters[i]];
    }
    assert voters[..|voters|] == voters;
    var learnerSet: set<NodeId> := {};
    for i := 0 to |learners|
      invariant learnerSet == set id | id in learners[..i]
      invariant forall j :: 0 <= j < i ==> learners[j] !in voters
    {
      if learners[i] in voterSet {
        return Members({}, {}), Some(Overlap(learners[i]));
      }
      learnerSet := learnerSet + {learners[i]};
      assert learners[..i + 1] == learners[..i] + [learners[i]];
    }
    assert learners[..|learners|] == learners;
    return Members(voterSet, learnerSet), None;
  }

  /** `None` when the change is acceptable. The overlap check of the source names some
      server in both sets; here it is the least one, as its ordered scan finds it. */
  function Validate(change: Change, current: Configuration, mode: Mode): Option<ChangeError> {
    match current
    case Joint(_, _, _) => Some(ChangeInProgress)
    case Simple(voters, learners) =>
      match change
      case AddVoter(id) =>
        if id in voters then Some(AlreadyVoter(id))
        else if id !in learners then Some(PromoteRequiresLearner(id))
        else None
      case RemoveVoter(id) =>
        if id !in voters then Some(NotVoter(id))
        else if |voters| == 1 then Some(WouldBeEmpty)
        else None
      case AddLearner(id) =>
        if id in voters then Some(AlreadyVoter(id))
        else if id in learners then Some(AlreadyLearner(id))
        else None
      case RemoveLearner(id) =>
        if id !in learners then Some(NotLearner(id)) else None
      case SetMembers(m) =>
        if m.voters == voters && m.learners == learners then Some(NoChange)
        else if mode.SingleServer? && |m.voters - voters| + |voters - m.voters| > 1 then
          Some(NotSingleChange(|m.voters - voters|, |voters - m.voters|))
        else if m.voters == {} then Some(WouldBeEmpty)
        else if m.voters * m.learners != {} then Some(AlreadyVoter(Ascending(m.voters * m.learners)[0]))
        else None
  }

  function Apply(change: Change, current: Configuration, mode: Mode): Configuration {
    var voters := if current.Simple? then current.voters else current.incoming;
    var learners := current.learners;
    match change
    case AddVoter(id) => Simple(voters + {id}, learners - {id})
    case RemoveVoter(id) => Simple(voters - {id}, learners)
    case AddLearner(id) => Simple(voters, learners + {id})
    case RemoveLearner(id) => Simple(voters, learners - {id})
    case SetMembers(m) =>
      if mode.JointConsensus? && voters != m.voters then Joint(voters, m.voters, m.learners)
      else Simple(m.voters, m.learners)
  }

  // ----- Quorum overlap -----

  /** Whatever quorum decides under `a` and whatever quorum decides under `b`, some
      server took part in both decisions. */
  ghost predicate QuorumsMeet(a: Configuration, b: Configuration) {
    forall p: set<NodeId>, q: set<NodeId> :: a.HasQuorum(p) && b.HasQuorum(q) ==> p * q != {}
  }

  /** Voter sets one server apart have intersecting majorities. */
  lemma MajoritiesMeet(v: set<NodeId>, w: set<NodeId>, p: set<NodeId>, q: set<NodeId>)
    requires |v * p| > |v| / 2 && |w * q| > |w| / 2
    requires v == w || (v <= w && |w| == |v| + 1) || (w <= v && |v| == |w| + 1)
    ensures p * q != {}
  {
    var whole := if v <= w then w else v;
    Pigeonhole(v * p, w * q, whole);
    var x :| x in (v * p) * (w * q);
    assert x in p * q;
  }

  /** Voters and learners the source itself maintains: somebody votes, and no server is
      both a (future) voter and a learner. */
  ghost predicate Sound(c: Configuration) {
    match c
    case Simple(voters, learners) => voters != {} && voters !! learners
    case Joint(outgoing, incoming, learners) => outgoing != {} && incoming != {} && incoming !! learners
  }

  lemma ValidatedChangeIsSound(change: Change, current: Configuration, mode: Mode)
    requires Sound(current)
    requires Validate(change, current, mode) == None
    ensures Sound(Apply(change, current, mode))
  {
    match change
    case SetMembers(m) => assert forall id :: id in m.voters && id in m.learners ==> id in m.voters * m.learners;
    case RemoveVoter(id) => assert current.voters == (current.voters - {id}) + {id};
    case _ =>
  }

  lemma ValidatedChangeIsSafe(change: Change, current: Configuration, mode: Mode)
    requires Sound(current)
    requires Validate(change, current, mode) == None
    ensures QuorumsMeet(current, Apply(change, current, mode))
    ensures Sound(Apply(change, current, mode))
  {
    ValidatedChangeIsSound(change, current, mode);
    hide Sound;
    var next := Apply(change, current, mode);
    var v, w := current.voters, if next.Simple? then next.voters else next.outgoing;
    if change.SetMembers? && mode.SingleServer? {
      OneServerApart(v, w);
    }
    if change.RemoveVoter? {
      assert v == w + {change.id};
    }
    forall p: set<NodeId>, q: set<NodeId> | current.HasQuorum(p) && next.HasQuorum(q)
      ensures p * q != {}
    {
      MajoritiesMeet(v, w, p, q);
    }
  }

  lemma OneServerApart(v: set<NodeId>, w: set<NodeId>)
    requires |w - v| + |v - w| <= 1
    ensures v == w || (v <= w && |w| == |v| + 1) || (w <= v && |v| == |w| + 1)
  {
    assert w == (w * v) + (w - v);
    assert v == (w * v) + (v - w);
    if |w - v| == 0 {
      assert w - v == {};
    }
    if |v - w| == 0 {
      assert v - w == {};
    }
  }

  /** Completing a joint transition is as safe as entering it. */
  lemma CompletionIsSafe(joint: Configuration)
    requires joint.Joint? && Sound(joint)
    ensures joint.TransitionTarget().Some?
    ensures QuorumsMeet(joint, joint.TransitionTarget().value)
    ensures Sound(joint.TransitionTarget().value)
  {
    var target := joint.TransitionTarget().value;
    forall p: set<NodeId>, q: set<NodeId> | joint.HasQuorum(p) && target.HasQuorum(q)
      ensures p * q != {}
    {
      MajoritiesMeet(joint.incoming, joint.incoming, p, q);
    }
  }

  /** Who is to vote once a change is through. */
  ghost predicate VotesAfter(change: Change, current: Configuration, x: NodeId) {
    match change
    case AddVoter(id) => current.IsVoter(x) || x == id
    case RemoveVoter(id) => current.IsVoter(x) && x != id
    case AddLearner(_) => current.IsVoter(x)
    case RemoveLearner(_) => current.IsVoter(x)
    case SetMembers(m) => x in m.voters
  }

  /** Who is to learn without voting. */
  ghost predicate LearnsAfter(change: Change, current: Configuration, x: NodeId) {
    var learns := current.IsMember(x) && !current.IsVoter(x);
    match change
    case AddVoter(id) => learns && x != id
    case RemoveVoter(_) => learns
    case AddLearner(id) => learns || x == id
    case RemoveLearner(id) => learns && x != id
    case SetMembers(m) => x in m.learners
  }

  /** A change is accepted if and only if no other is under way and it would do something: a
      learner starts to vote, a voter that is not the last one stops, a stranger starts to
      learn, a learner stops; or the members are set to others, of whom somebody votes and
      nobody both votes and learns, with at most one voter changed in the single-server mode. */
  lemma AcceptedIff(change: Change, current: Configuration, mode: Mode)
    requires Sound(current)
    ensures Validate(change, current, mode) == None <==>
              && current.Simple?
              && match change
                 case AddVoter(id) => current.IsMember(id) && !current.IsVoter(id)
                 case RemoveVoter(id) => current.IsVoter(id) && exists x :: x != id && current.IsVoter(x)
                 case AddLearner(id) => !current.IsMember(id)
                 case RemoveLearner(id) => current.IsMember(id) && !current.IsVoter(id)
                 case SetMembers(m) => Settable(m, current, mode)
  {
    if current.Simple? {
      match change
      case RemoveVoter(id) =>
        if id in current.voters {
          OtherVoter(current, id);
        }
      case SetMembers(m) => SettableIff(m, current, mode);
      case _ =>
    }
  }

  /** Why a change of one server is refused. */
  lemma RefusedAs(change: Change, current: Configuration, mode: Mode)
    requires Sound(current) && !change.SetMembers?
    ensures var r, id := Validate(change, current, mode), change.id;
            && (r == Some(ChangeInProgress) <==> current.Joint?)
            && (r == Some(AlreadyVoter(id)) <==> current.Simple? && (change.AddVoter? || change.AddLearner?)
                                                 && current.IsVoter(id))
            && (r == Some(AlreadyLearner(id)) <==> current.Simple? && change.AddLearner?
                                                   && current.IsMember(id) && !current.IsVoter(id))
            && (r == Some(PromoteRequiresLearner(id)) <==> current.Simple? && change.AddVoter? && !current.IsMember(id))
            && (r == Some(NotVoter(id)) <==> current.Simple? && change.RemoveVoter? && !current.IsVoter(id))
            && (r == Some(WouldBeEmpty) <==> current.Simple? && change.RemoveVoter? && current.IsVoter(id)
                                             && forall x :: current.IsVoter(x) ==> x == id)
            && (r == Some(NotLearner(id)) <==> current.Simple? && change.RemoveLearner?
                                               && !(current.IsMember(id) && !current.IsVoter(id)))
  {
    if current.Simple? && change.RemoveVoter? && change.id in current.voters {
      OtherVoter(current, change.id);
    }
  }

  /** Why other members are refused: in this order, there is nothing to do, more than one voter
      changes in the single-server mode, nobody would vote, or somebody would both vote and
      learn. */
  lemma SetRefusedAs(m: Members, current: Configuration, mode: Mode)
    requires current.Simple? && Validate(SetMembers(m), current, mode).Some?
    ensures var (e, added, removed) := (Validate(SetMembers(m), current, mode).value, m.voters - current.voters,
                                        current.voters - m.voters);
            if m == Members(current.voters, current.learners) then e == NoChange
            else if mode.SingleServer? && |added| + |removed| >= 2 then e == NotSingleChange(|added|, |removed|)
            else if m.voters == {} then e == WouldBeEmpty
            else && e.AlreadyVoter? && e.id in m.voters && e.id in m.learners
                 && forall x :: x in m.voters && x in m.learners ==> e.id <= x
  {
    var both := Ascending(m.voters * m.learners);
    if both != [] {
      assert both[0] in both;
      forall x | x in m.voters && x in m.learners ensures both[0] <= x {
        assert x in both;
      }
    }
  }

  /** The server starts or stops to vote. */
  ghost predicate VoteChanges(m: Members, current: Configuration, x: NodeId) {
    x in m.voters <==> !current.IsVoter(x)
  }

  ghost predicate Changes(m: Members, current: Configuration, x: NodeId) {
    VoteChanges(m, current, x) || (x in m.learners <==> !(current.IsMember(x) && !current.IsVoter(x)))
  }

  ghost predicate Settable(m: Members, current: Configuration, mode: Mode) {
    && (exists x :: x in m.voters) && (forall x :: x in m.voters ==> x !in m.learners)
    && (exists x :: Changes(m, current, x))
    && (mode.SingleServer? ==>
          forall x: NodeId, y: NodeId :: VoteChanges(m, current, x) && VoteChanges(m, current, y) ==> x == y)
  }

  lemma SettableIff(m: Members, current: Configuration, mode: Mode)
    requires Sound(current) && current.Simple?
    ensures Validate(SetMembers(m), current, mode) == None <==> Settable(m, current, mode)
  {
    AtMostOneApart(m, current);
    SomethingChanges(m, current);
    NobodyTwice(m);
  }

  lemma SomethingChanges(m: Members, current: Configuration)
    requires Sound(current) && current.Simple?
    ensures m.voters != current.voters || m.learners != current.learners <==> exists x :: Changes(m, current, x)
  {
    if m.voters != current.voters {
      var x :| x in m.voters <==> x !in current.voters;
      assert Changes(m, current, x);
    } else if m.learners != current.learners {
      var x :| x in m.learners <==> x !in current.learners;
      assert Changes(m, current, x);
    }
  }

  lemma NobodyTwice(m: Members)
    ensures m.voters * m.learners == {} <==> forall x :: x in m.voters ==> x !in m.learners
  {
    if m.voters * m.learners != {} {
      var x :| x in m.voters * m.learners;
      assert x in m.voters && x in m.learners;
    } else {
      forall x | x in m.voters ensures x !in m.learners {
        assert x !in m.voters * m.learners;
      }
    }
  }

  lemma OtherVoter(current: Configuration, id: NodeId)
    requires current.Simple? && id in current.voters
    ensures |current.voters| != 1 <==> exists x :: x != id && current.IsVoter(x)
  {
    var rest := current.voters - {id};
    assert current.voters == rest + {id};
    if |current.voters| != 1 {
      assert rest != {};
      var x :| x in rest;
      assert current.IsVoter(x);
    } else {
      assert |rest| == 0;
      forall x | x != id ensures !current.IsVoter(x) {
        assert x !in rest;
      }
    }
  }

  lemma AtMostOneApart(m: Members, current: Configuration)
    requires current.Simple?
    ensures |m.voters - current.voters| + |current.voters - m.voters| <= 1 <==>
              forall x: NodeId, y: NodeId :: VoteChanges(m, current, x) && VoteChanges(m, current, y) ==> x == y
  {
    var a, b := m.voters - current.voters, current.voters - m.voters;
    assert |a + b| == |a| + |b|;
    AtMostOne(a + b);
    assert forall x: NodeId :: x in a + b <==> VoteChanges(m, current, x);
  }

  lemma AtMostOne(d: set<NodeId>)
    ensures |d| <= 1 <==> forall x, y :: x in d && y in d ==> x == y
  {
    if |d| <= 1 {
      forall x, y | x in d && y in d ensures x == y {
        if x != y {
          SubsetSize({x, y}, d);
        }
      }
    } else {
      var x :| x in d;
      assert |d - {x}| > 0;
      var y :| y in d - {x};
    }
  }

  /** More than half of the voters are a quorum, in a joint configuration of either set. */
  lemma QuorumIff(c: Configuration, yes: set<NodeId>)
    ensures c.Simple? ==> (c.HasQuorum(yes) <==> 2 * |c.voters * yes| > |c.voters|)
    ensures c.Joint? ==>
              (c.HasQuorum(yes) <==> 2 * |c.outgoing * yes| > |c.outgoing| && 2 * |c.incoming * yes| > |c.incoming|)
    ensures forall x :: x in c.Voters() <==> c.IsVoter(x)
    ensures forall x :: x in c.AllNodes() <==> c.IsMember(x)
  {
  }

  lemma ChangedMembers(change: Change, current: Configuration, mode: Mode)
    requires Sound(current) && Validate(change, current, mode) == None
    ensures var next := Apply(change, current, mode);
            var last := if next.Joint? then next.TransitionTarget().value else next;
            && last.Simple?
            && (forall x :: last.IsVoter(x) <==> VotesAfter(change, current, x))
            && (forall x :: last.IsMember(x) <==> VotesAfter(change, current, x) || LearnsAfter(change, current, x))
  {
  }

  /** A whole reconfiguration, in either mode: the change, then the completion if the
      change went through a joint configuration. The result is always a simple
      configuration, reached through steps whose quorums meet. */
  lemma ReconfigurationIsSafe(change: Change, current: Configuration, mode: Mode)
    returns (path: seq<Configuration>)
    requires Sound(current)
    requires Validate(change, current, mode) == None
    ensures |path| >= 2 && path[0] == current && path[1] == Apply(change, current, mode) && path[|path| - 1].Simple?
    ensures if mode.JointConsensus? && change.SetMembers? && change.members.voters != current.voters
            then |path| == 3 && path[1] == Joint(current.voters, change.members.voters, change.members.learners)
                 && Some(path[2]) == path[1].TransitionTarget()
            else |path| == 2
    ensures forall i :: 0 <= i < |path| ==> Sound(path[i])
    ensures forall i :: 0 <= i < |path| - 1 ==> QuorumsMeet(path[i], path[i + 1])
    ensures forall x :: path[|path| - 1].IsVoter(x) <==> VotesAfter(change, current, x)
    ensures forall x :: path[|path| - 1].IsMember(x) <==>
              VotesAfter(change, current, x) || LearnsAfter(change, current, x)
  {
    hide QuorumsMeet, Sound, VotesAfter, LearnsAfter, Configuration.IsVoter, Configuration.IsMember;
    ValidatedChangeIsSafe(change, current, mode);
    ChangedMembers(change, current, mode);
    var next := Apply(change, current, mode);
    if next.Joint? {
      CompletionIsSafe(next);
      path := [current, next, next.TransitionTarget().value];
    } else {
      path := [current, next];
    }
  }
}
