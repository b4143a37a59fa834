/** How far each term's leader committed, and what a confirmed read round therefore covers. */
module ReadSafety {
  import opened Types
  import opened Event
  import opened Protocol
  import opened History
  import opened Completeness
  import opened ReadIndex
  import opened CommitSafety

  /** Some leader of a term up to `t` had committed through `n`. */
  ghost predicate Covered(h: History, t: Term, n: LogIndex) {
    n == 0 || exists t' :: t' <= t && t' in h.marks && n <= h.marks[t']
  }

  ghost predicate MarkMessageOk(m: Message, h: History) {
    m.body.AppendRequest? ==> Covered(h, m.term, m.body.leaderCommit)
  }

  /** Every commit index anywhere goes back to a leader's own decision. */
  ghost predicate MarkInv(s: State, h: History) {
    && (forall i :: i in s.servers ==> Covered(h, s.servers[i].term, s.servers[i].commit))
    && (forall m :: m in s.net ==> MarkMessageOk(m, h))
  }

  ghost predicate MarksHeld(voters: set<NodeId>, h: History) {
    forall t :: t in h.marks ==> HeldByMajority(voters, h, t, h.marks[t])
  }

  /** When a confirmed round was requested no term above its own had a leader, unless its
      leader had numbered a round alike in an older term. */
  ghost predicate ConfirmsSound(h: History) {
    forall k :: k in h.confirmed ==> ConfirmSound(k.0, k.1, h)
  }

  ghost predicate ConfirmSound(t: Term, id: nat, h: History) {
    && (t, id) in h.rounds && t in h.elections
    && ((forall u :: u in h.rounds[(t, id)].elected ==> u <= t)
        || Echo(h.elections[t].leader, t, id, h.rounds[(t, id)].readIndex, h))
  }

  lemma CoveredGrows(h: History, h': History, t: Term, n: LogIndex, t2: Term, n2: LogIndex)
    requires Covered(h, t, n) && Extends(h, h') && t <= t2 && n2 <= n
    ensures Covered(h', t2, n2)
  {
    if n2 != 0 {
      var t' :| t' <= t && t' in h.marks && n <= h.marks[t'];
      assert t' in h'.marks;
    }
  }

  lemma SelfMarkOk(voters: set<NodeId>, net: set<Message>, i: NodeId, sv: Server, a: Action, h: History)
    requires Can(voters, net, i, sv, a) && Covered(h, sv.term, sv.commit)
    requires a.Accept? ==> MarkMessageOk(a.m, h)
    requires Extends(h, Record(h, i, sv, a))
    ensures Covered(Record(h, i, sv, a), Effect(i, sv, a).0.term, Effect(i, sv, a).0.commit)
  {
    CommitFrom(voters, net, i, sv, a, h);
    hide Can, Effect, Record, Covered, Extends;
    var sv', h' := Effect(i, sv, a).0, Record(h, i, sv, a);
    if a.Commit? {
      OwnMark(h', sv'.term, sv'.commit);
    } else if sv'.commit <= sv.commit {
      CoveredGrows(h, h', sv.term, sv.commit, sv'.term, sv'.commit);
    } else {
      CoveredGrows(h, h', a.m.term, a.m.body.leaderCommit, sv'.term, sv'.commit);
    }
  }

  lemma OwnMark(h: History, t: Term, n: LogIndex)
    requires t in h.marks && h.marks[t] == n
    ensures Covered(h, t, n)
  {
  }

  /** Where a server's commit index comes from. */
  lemma CommitFrom(voters: set<NodeId>, net: set<Message>, i: NodeId, sv: Server, a: Action, h: History)
    requires Can(voters, net, i, sv, a)
    ensures var sv' := Effect(i, sv, a).0;
            && sv.term <= sv'.term
            && (a.Commit? ==>
                  sv'.term in Record(h, i, sv, a).marks
                  && Record(h, i, sv, a).marks[sv'.term] == sv'.commit)
            && (sv'.commit > sv.commit && !a.Commit? ==>
                  a.Accept? && a.m.term == sv'.term && sv'.commit <= a.m.body.leaderCommit)
  {
    hide MergeAt, HeldBy, LogHasTerm, HoldersOf;
  }

  lemma MarkMessageOut(voters: set<NodeId>, net: set<Message>, i: NodeId, sv: Server, a: Action, h: History, m: Message)
    requires Can(voters, net, i, sv, a) && Covered(h, sv.term, sv.commit)
    requires m in Effect(i, sv, a).1
    ensures MarkMessageOk(m, Record(h, i, sv, a))
  {
    hide MergeAt, HeldBy, Covered, LogHasTerm, HoldersOf;
  }

  lemma MarkInvStep(s: State, h: History, i: NodeId, a: Action)
    requires Enabled(s, i, a) && MarkInv(s, h) && ElectionInv(s, h)
    requires Extends(h, Record(h, i, s.servers[i], a))
    ensures MarkInv(Apply(s, i, a), Record(h, i, s.servers[i], a))
  {
    hide Can, Record, Effect, Extends, ElectionInv, VoteOk, PhaseOk, ElectionsBacked, Covered;
    EnabledSelf(s, h, i, a);
    Delivered(s, i, a);
    var sv, s', h' := s.servers[i], Apply(s, i, a), Record(h, i, s.servers[i], a);
    SelfMarkOk(s.voters, s.net, i, sv, a, h);
    forall j | j in s'.servers ensures Covered(h', s'.servers[j].term, s'.servers[j].commit) {
      if j != i {
        CoveredGrows(h, h', s.servers[j].term, s.servers[j].commit, s.servers[j].term, s.servers[j].commit);
      }
    }
    forall m | m in s'.net ensures MarkMessageOk(m, h') {
      if m in s.net {
        if m.body.AppendRequest? {
          CoveredGrows(h, h', m.term, m.body.leaderCommit, m.term, m.body.leaderCommit);
        }
      } else {
        MarkMessageOut(s.voters, s.net, i, sv, a, h, m);
      }
    }
  }

  /** A truthful leader's commit is held by a majority. */
  lemma MarksHeldStep(voters: set<NodeId>, net: set<Message>, i: NodeId, sv: Server, a: Action, h: History)
    requires Can(voters, net, i, sv, a) && PhaseOk(i, sv, h) && CommitOk(voters, sv, h) && MarksHeld(voters, h)
    requires Extends(h, Record(h, i, sv, a))
    ensures MarksHeld(voters, Record(h, i, sv, a))
  {
    hide HeldByMajority, MergeAt, CommitOk, PhaseOk, Extends, HeldBy, Majority;
    var h' := Record(h, i, sv, a);
    forall t | t in h'.marks ensures HeldByMajority(voters, h', t, h'.marks[t]) {
      if a.Commit? && t == sv.term {
        CommitCounted(voters, i, sv, a.index, h);
      }
      MajorityGrows(voters, h, h', t, h'.marks[t]);
    }
  }

  lemma ConfirmGrows(t: Term, id: nat, h: History, h': History)
    requires ConfirmSound(t, id, h) && Extends(h, h')
    ensures ConfirmSound(t, id, h')
  {
    hide Echo;
    var to, r := h.elections[t].leader, h.rounds[(t, id)].readIndex;
    if Echo(to, t, id, r, h) {
      EchoGrows(to, t, id, r, h, h');
    }
  }

  /** A majority of answers that echo nothing was given after the request. */
  lemma ConfirmIsSound(s: State, h: History, i: NodeId)
    requires i in s.servers && s.servers[i].phase.Leading? && s.servers[i].phase.pending.Some?
    requires Majority(s.voters, s.servers[i].phase.pending.value.acks)
    requires ElectionInv(s, h) && ReadInv(s, h)
    ensures ConfirmSound(s.servers[i].term, s.servers[i].phase.pending.value.id, h)
  {
    hide VoteMessagesOk, BackedBy, VotesJustified, VoteOk, ReadMessageOk, RoundsOk, Echo, Fresh, Majority, RoundsKnown;
    var sv := s.servers[i];
    var round := sv.phase.pending.value;
    assert PendingOk(i, sv, h) && PhaseOk(i, sv, h);
    if !Echo(i, sv.term, round.id, round.readIndex, h) {
      forall u | u in h.rounds[(sv.term, round.id)].elected ensures u <= sv.term {
        FreshRoundSound(s.voters, sv.term, round.id, round.acks, h, u);
      }
    }
  }

  lemma ConfirmsStep(s: State, h: History, i: NodeId, a: Action)
    requires Enabled(s, i, a) && ConfirmsSound(h) && ElectionInv(s, h) && ReadInv(s, h)
    requires Extends(h, Record(h, i, s.servers[i], a))
    ensures ConfirmsSound(Record(h, i, s.servers[i], a))
  {
    hide ElectionInv, ReadInv, MergeAt, HeldBy, ConfirmSound, Extends;
    var sv := s.servers[i];
    var h' := Record(h, i, sv, a);
    if a.Confirm? {
      ConfirmIsSound(s, h, i);
    }
    forall k | k in h'.confirmed ensures ConfirmSound(k.0, k.1, h') {
      ConfirmGrows(k.0, k.1, h, h');
    }
  }

  /** In truthful runs there are no echoes. */
  lemma ConfirmedWithoutEcho(voters: set<NodeId>, h: History, t: Term, id: nat, u: Term)
    requires Sound(voters, h) && RoundsSafe(voters, h) && ConfirmSound(t, id, h)
    requires u in h.rounds[(t, id)].elected
    ensures u <= t
  {
    hide Sound, RoundsSafe, Echo;
    NoEcho(voters, h, h.elections[t].leader, t, id);
  }
}
